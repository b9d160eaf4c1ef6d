/** The invariant of every reachable state, kept by calls and by recovery. */
module Reach {
  import opened Status
  import opened Entities
  import opened Mutations
  import opened Work
  import opened Machine
  import opened Evolution
  import opened Recovery
  import opened Run
  import opened Steps
  import opened Soundness
  import opened Extremes
  import Deltas
  import Occupancies

  // ---- the invariant --------------------------------------------------------

  predicate AllSound(c: Config, s: State) {
    forall i :: i in s.queues ==> Sound(c, s.queues[i], s.epoch) && s.queues[i].def.id == i
  }

  /** Every resource's authority belongs to the fabric's epoch. */
  predicate EpochsAgree(s: State) {
    s.epoch >= 1 && forall i :: i in s.resources ==> s.resources[i].epoch == s.epoch && s.resources[i].authority.epoch == s.epoch
  }

  predicate RecordSound(c: Config, rec: Record, epoch: nat) {
    match rec
    case QueueState(q) => Sound(c, q, epoch)
    case CommitMutation(r) => CommitKind(r.kind)
    case _ => true
  }

  predicate RecordsSound(c: Config, records: seq<Record>, epoch: nat) {
    forall k :: 0 <= k < |records| ==> RecordSound(c, records[k], epoch)
  }

  /** What is on stable storage already carries the current epoch. */
  predicate EpochStored(c: Config, s: State) {
    && s.journal.synced <= |s.journal.records| && s.journal.headerEpoch <= s.epoch
    && (c.hasJournal ==> Load(s.journal.records[..s.journal.synced], s.journal.headerEpoch).epoch >= s.epoch)
  }

  predicate Inv(c: Config, s: State) {
    && Counted(s) && AllSound(c, s) && EpochsAgree(s)
    && RecordsSound(c, s.journal.records, s.epoch) && EpochStored(c, s)
  }

  // ---- epochs in a journal --------------------------------------------------

  /** Reading more records never lowers the epoch found. */
  lemma {:induction false} LoadEpochPrefix(records: seq<Record>, header: nat, n: nat)
    requires n <= |records|
    ensures Load(records[..n], header).epoch <= Load(records, header).epoch
  {
    hide StorableQueue, StorableResource, Restored;
    if n == |records| {
      assert records[..n] == records;
    } else {
      var shorter := records[..|records| - 1];
      LoadEpochPrefix(shorter, header, n);
      assert shorter[..n] == records[..n];
    }
  }

  lemma LoadEpochAt(records: seq<Record>, header: nat, k: nat)
    requires k < |records| && records[k].EpochState?
    ensures records[k].epoch <= Load(records, header).epoch
  {
    hide StorableQueue, StorableResource, Restored;
    LoadEpochPrefix(records, header, k + 1);
    assert records[..k + 1][..k] == records[..k];
  }

  // ---- one call -------------------------------------------------------------

  lemma SoundLater(c: Config, q: Queue, epoch: nat, later: nat)
    requires Sound(c, q, epoch) && epoch <= later
    ensures Sound(c, q, later)
  {
  }

  lemma MarkedSound(c: Config, s: State, e: Event, next: State, i: Id)
    requires i in s.queues && Marked(c, s, e, next, i) && Sound(c, s.queues[i], s.epoch) && s.epoch <= next.epoch
    ensures Sound(c, next.queues[i], next.epoch) && next.queues[i].def == s.queues[i].def
  {
    hide Fits, NextClass, QueuePolicy, Occupancies.Classify;
  }

  lemma HandledSound(c: Config, s: State, r: Request, replaying: bool, reply: Reply, i: Id)
    requires i in s.queues && Handled(c, s, r, replaying, reply, i) && Sound(c, s.queues[i], s.epoch)
    ensures i in reply.state.queues
    ensures Sound(c, reply.state.queues[i], s.epoch) && reply.state.queues[i].def.id == s.queues[i].def.id
  {
    hide Sound, Worked, Kept;
    if reply.verdict.Took? && r.queue == i && !r.kind.DeclareQueue? {
      WorkedSound(c, s, reply.state.watermark, s.queues[i], r, replaying, reply.state.queues[i]);
    } else {
      KeptSound(c, r, s.queues[i], reply.state.queues[i], s.epoch);
    }
  }

  lemma InstalledSound(c: Config, s: State, r: Request, replaying: bool, reply: Reply, i: Id)
    requires Installed(c, s, r, replaying, reply, i)
    ensures Sound(c, reply.state.queues[i], s.epoch) && reply.state.queues[i].def.id == i
  {
    hide Sound, Kept, CheckDeclaration, Remembered;
    var q := NewQueue(r, i, reply.state.watermark);
    NewQueueSound(c, r, i, reply.state.watermark, s.epoch);
    RememberedKept(c, q, r, Ok, c.hasJournal);
    KeptSound(c, r, q, reply.state.queues[i], s.epoch);
  }

  lemma QueuesAfterSound(c: Config, s: State, r: Request, replaying: bool, reply: Reply)
    requires AllSound(c, s) && Numbered(s) && QueuesAfter(c, s, r, replaying, reply) && reply.state.epoch == s.epoch
    ensures AllSound(c, reply.state) && Numbered(reply.state)
  {
    hide Sound, Handled, Installed;
    forall i | i in reply.state.queues
      ensures Sound(c, reply.state.queues[i], s.epoch) && reply.state.queues[i].def.id == i && i < reply.state.ids.queue
    {
      if i in s.queues {
        HandledSound(c, s, r, replaying, reply, i);
      } else {
        InstalledSound(c, s, r, replaying, reply, i);
        InstalledNumber(c, s, r, replaying, reply, i);
      }
    }
  }

  lemma InstalledNumber(c: Config, s: State, r: Request, replaying: bool, reply: Reply, i: Id)
    requires Installed(c, s, r, replaying, reply, i)
    ensures i < reply.state.ids.queue
  {
    hide CheckDeclaration, Remembered, Check;
  }

  lemma QueueStepsSound(c: Config, s: State, e: Event, reply: Reply)
    requires AllSound(c, s) && Numbered(s) && QueueSteps(c, s, e, reply) && CoreStep(s, e, reply.state)
    ensures AllSound(c, reply.state) && Numbered(reply.state)
  {
    hide Sound, Handled, Marked, Installed;
    forall i | i in reply.state.queues
      ensures Sound(c, reply.state.queues[i], reply.state.epoch) && reply.state.queues[i].def.id == i && i < reply.state.ids.queue
    {
      if i in s.queues {
        assert QueueStep(c, s, e, reply, i);
        if RequestOf(s, e).Some? {
          HandledSound(c, s, RequestOf(s, e).value, false, reply, i);
        } else {
          MarkedSound(c, s, e, reply.state, i);
        }
      } else {
        InstalledSound(c, s, e.request, false, reply, i);
        InstalledNumber(c, s, e.request, false, reply, i);
      }
    }
  }

  lemma ResourceStepsAgree(s: State, e: Event, next: State)
    requires EpochsAgree(s) && Counted(s) && ResourceSteps(s, e, next) && CoreStep(s, e, next)
    requires Numbered(next)
    ensures EpochsAgree(next) && Counted(next)
  {
    hide BackendsStep, Numbered;
    forall i | i in next.resources
      ensures next.resources[i].epoch == next.epoch && next.resources[i].authority.epoch == next.epoch
      ensures i < next.ids.resource && next.resources[i].id == i
    {
      if i in s.resources {
        assert ResourceStep(s, e, next, i);
      }
    }
  }

  lemma RecordsSoundLater(c: Config, records: seq<Record>, epoch: nat, later: nat)
    requires RecordsSound(c, records, epoch) && epoch <= later
    ensures RecordsSound(c, records, later)
  {
    hide Sound;
    forall k | 0 <= k < |records| ensures RecordSound(c, records[k], later) {
      if records[k].QueueState? {
        SoundLater(c, records[k].queue, epoch, later);
      }
    }
  }

  lemma SnapshotSound(c: Config, s: State)
    requires AllSound(c, s)
    ensures RecordsSound(c, Snapshot(s), s.epoch)
    ensures |Snapshot(s)| > 0 && Snapshot(s)[0] == EpochState(s.boot, s.epoch, s.incarnation)
  {
    hide Sound, Ascending;
    forall i ensures i in Ascending(s.queues.Keys) ==> i in s.queues {
      AscendingMembers(s.queues.Keys, i);
    }
  }

  lemma JournalStepSound(c: Config, s: State, e: Event, next: State)
    requires AllSound(c, s) && JournalStep(c, s, e, next) && CoreStep(s, e, next)
    requires RecordsSound(c, s.journal.records, s.epoch)
    ensures RecordsSound(c, next.journal.records, next.epoch)
  {
    hide Sound, Snapshot, AllSound;
    RecordsSoundLater(c, s.journal.records, s.epoch, next.epoch);
    if e.CompactJournal? {
      SnapshotSound(c, s);
    } else {
      forall k | 0 <= k < |next.journal.records| ensures RecordSound(c, next.journal.records[k], next.epoch) {
        if k < |s.journal.records| {
          assert next.journal.records[k] == s.journal.records[k];
        } else {
          assert RecordStep(s, e, next.journal.records[k]);
        }
      }
    }
  }

  lemma JournalStepStored(c: Config, s: State, e: Event, next: State)
    requires AllSound(c, s) && JournalStep(c, s, e, next) && CoreStep(s, e, next) && EpochStored(c, s)
    ensures EpochStored(c, next)
  {
    hide Sound, Snapshot, AllSound, Load, RecordStep;
    var header := s.journal.headerEpoch;
    var j, k := s.journal, next.journal;
    if !c.hasJournal {
    } else if k == j {
    } else if e.CompactJournal? {
      SnapshotSound(c, s);
      assert k.records[..k.synced] == Snapshot(s);
      LoadEpochAt(Snapshot(s), header, 0);
    } else if next.epoch != s.epoch {
      assert k.records[..k.synced] == k.records;
      LoadEpochAt(k.records, header, |j.records|);
    } else {
      assert k.records[..j.synced] == j.records[..j.synced];
      if k.synced != j.synced {
        assert k.records[..k.synced] == k.records;
        LoadEpochPrefix(k.records, header, j.synced);
      }
    }
  }

  lemma StepInv(c: Config, s: State, e: Event)
    requires Inv(c, s) && !e.Restart?
    ensures Inv(c, Step(c, s, e).state)
  {
    hide Step, Counted, AllSound, EpochsAgree, RecordsSound, EpochStored, QueueSteps, ResourceSteps, CoreStep, JournalStep;
    var reply := Step(c, s, e);
    Deltas.StepDelta(c, s, e);
    assert Numbered(s) by {
      CountedNumbered(s);
    }
    QueueStepsSound(c, s, e, reply);
    ResourceStepsAgree(s, e, reply.state);
    JournalStepSound(c, s, e, reply.state);
    JournalStepStored(c, s, e, reply.state);
  }

  lemma CountedNumbered(s: State)
    requires Counted(s)
    ensures Numbered(s)
  {
  }

  // ---- recovery -------------------------------------------------------------

  lemma RestoredSound(c: Config, q: Queue, epoch: nat)
    requires Sound(c, q, epoch)
    ensures Sound(c, Restored(q), epoch) && Restored(q).def == q.def
  {
    hide Fits;
  }

  /** What reading a sound journal yields. */
  predicate LoadedSound(c: Config, l: Loaded, epoch: nat) {
    && (forall i :: i in l.queues ==> Sound(c, l.queues[i], epoch) && l.queues[i].def.id == i)
    && (forall i :: i in l.resources ==> l.resources[i].id == i)
    && (forall k :: 0 <= k < |l.order| ==> CommitKind(l.order[k].kind))
  }

  lemma AbsorbSound(c: Config, l: Loaded, rec: Record, epoch: nat)
    requires LoadedSound(c, l, epoch) && RecordSound(c, rec, epoch)
    ensures LoadedSound(c, Absorb(l, rec), epoch)
  {
    hide Sound, StorableQueue, StorableResource, Restored, CommitKind, Decodable;
    if rec.QueueState? {
      RestoredSound(c, rec.queue, epoch);
    }
  }

  lemma {:induction false} LoadSound(c: Config, records: seq<Record>, header: nat, epoch: nat)
    requires RecordsSound(c, records, epoch)
    ensures LoadedSound(c, Load(records, header), epoch)
  {
    hide LoadedSound, RecordSound, Absorb;
    if records == [] {
      NothingLoaded(c, header, epoch);
    } else {
      LoadSound(c, records[..|records| - 1], header, epoch);
      AbsorbSound(c, Load(records[..|records| - 1], header), records[|records| - 1], epoch);
    }
  }

  lemma NothingLoaded(c: Config, header: nat, epoch: nat)
    ensures LoadedSound(c, Loaded(header, 1, map[], map[], map[], []), epoch)
  {
    hide Sound;
  }

  /** Records filed under their own identities. */
  predicate SelfKeyed(s: State) {
    && (forall i :: i in s.queues ==> s.queues[i].def.id == i)
    && (forall i :: i in s.resources ==> s.resources[i].id == i)
  }

  lemma FreshAbove(resources: map<Id, Resource>, queues: map<Id, Queue>)
    ensures forall i :: i in queues ==> queues[i].def.id < FreshIds(resources, queues).queue
    ensures forall i :: i in resources ==> resources[i].id < FreshIds(resources, queues).resource
  {
    var qs := set i | i in queues :: queues[i].def.id;
    var rs := set i | i in resources :: resources[i].id;
    forall i | i in queues ensures queues[i].def.id <= Greatest(qs) {
      assert queues[i].def.id in qs;
    }
    forall i | i in resources ensures resources[i].id <= Greatest(rs) {
      assert resources[i].id in rs;
    }
  }

  lemma RebuildCounted(s: State)
    requires SelfKeyed(s)
    ensures Counted(Rebuild(s)) && Rebuild(s).queues == s.queues
  {
    hide FreshIds, NamesOf, QueuesOf;
    FreshAbove(s.resources, s.queues);
  }

  /** The part of the invariant that replay keeps. */
  predicate Replayable(c: Config, s: State, epoch: nat) {
    && s.epoch == epoch && Counted(s) && AllSound(c, s) && EpochsAgree(s) && RecordsSound(c, s.journal.records, epoch)
  }

  lemma RebuildAgrees(s: State)
    requires EpochsAgree(s)
    ensures EpochsAgree(Rebuild(s))
  {
    hide FreshIds, NamesOf, QueuesOf;
  }

  lemma BaseReplayable(c: Config, l: Loaded, j: Journal, boot: Boot)
    requires LoadedSound(c, l, NextEpoch(l.epoch)) && RecordsSound(c, j.records, NextEpoch(l.epoch))
    ensures Replayable(c, Base(l, j, boot), NextEpoch(l.epoch))
  {
    hide Rebuild, Sound, RecordsSound, Counted, AllDead;
    var epoch := NextEpoch(l.epoch);
    var raw := Blank(boot).(
      epoch := epoch, incarnation := l.incarnation, journal := j, queues := l.queues,
      resources := AllAdopted(l.resources, epoch));
    RebuildCounted(raw);
    RebuildAgrees(raw);
    RebuildRest(raw);
  }

  lemma RebuildRest(s: State)
    ensures Rebuild(s) == s.(names := Rebuild(s).names, resources := Rebuild(s).resources, ids := Rebuild(s).ids)
    ensures Rebuild(s).resources.Keys == s.resources.Keys
  {
    hide FreshIds, NamesOf, QueuesOf;
  }

  lemma ApplyReplayable(c: Config, s: State, r: Request, m: Moment, epoch: nat)
    requires Replayable(c, s, epoch)
    ensures Replayable(c, Apply(c, s, r, m.clock, m.io, true).state, epoch)
  {
    hide Apply, AllSound, QueuesAfter, Heard, Journalled, RecordsSound, Numbered;
    var reply := Apply(c, s, r, m.clock, m.io, true);
    ApplyQueues(c, s, r, m.clock, m.io, true);
    ApplyRest(c, s, r, m.clock, m.io, true);
    QueuesAfterSound(c, s, r, true, reply);
    JournalledSound(c, s.journal, reply.state.journal, r, m.io, reply.verdict.Took?, epoch);
  }

  lemma JournalledSound(c: Config, j: Journal, k: Journal, r: Request, io: Io, took: bool, epoch: nat)
    requires RecordsSound(c, j.records, epoch) && Journalled(c, j, k, r, io, took)
    ensures RecordsSound(c, k.records, epoch)
  {
    hide Sound, Encodable;
    var added := Added(j, k);
    forall n | 0 <= n < |k.records| ensures RecordSound(c, k.records[n], epoch) {
      if n < |j.records| {
        assert k.records[n] == j.records[n];
      } else {
        assert k.records[n] == added[n - |j.records|];
      }
    }
  }

  lemma {:induction false} ReplayReplayable(c: Config, s: State, order: seq<Request>, feed: seq<Moment>, epoch: nat)
    requires Replayable(c, s, epoch)
    ensures Replayable(c, Replay(c, s, order, feed), epoch)
  {
    hide Replayable, Apply;
    if order != [] {
      var n := |order| - 1;
      ReplayReplayable(c, s, order[..n], feed, epoch);
      ApplyReplayable(c, Replay(c, s, order[..n], feed), order[n], MomentAt(feed, n), epoch);
    }
  }

  lemma DistrustedSound(c: Config, q: Queue, orphaned: bool, epoch: nat)
    requires Sound(c, q, epoch)
    ensures Sound(c, Distrusted(q, orphaned), epoch) && Distrusted(q, orphaned).def == q.def
  {
    hide Fits;
  }

  lemma DistrustSound(c: Config, s: State, outstanding: map<Attempt, Request>, epoch: nat)
    requires Replayable(c, s, epoch)
    ensures Replayable(c, Distrust(s, outstanding), epoch)
  {
    hide Sound, Distrusted, Orphaned, RecordsSound;
    var next := Distrust(s, outstanding);
    forall i | i in next.queues ensures Sound(c, next.queues[i], epoch) && next.queues[i].def.id == i {
      DistrustedSound(c, s.queues[i], Orphaned(outstanding, i), epoch);
    }
  }

  lemma RebuildReplayable(c: Config, s: State, epoch: nat)
    requires Replayable(c, s, epoch)
    ensures Replayable(c, Rebuild(s), epoch)
  {
    hide Rebuild, Sound, RecordsSound, Numbered;
    RebuildCounted(s);
    RebuildAgrees(s);
    RebuildRest(s);
  }

  lemma AnnounceInv(c: Config, s: State, epoch: nat, watermark: int)
    requires Replayable(c, s, epoch)
    ensures Inv(c, Announce(s).(watermark := watermark))
  {
    hide Sound, Load;
    var next := Announce(s);
    var records := next.journal.records;
    LoadEpochAt(records, next.journal.headerEpoch, |records| - 1);
    assert records[..|records|] == records;
  }

  /** A recovery that succeeds, from whatever a crash left of the journal. */
  lemma RecoverInv(c: Config, j: Journal, boot: Boot, feed: seq<Moment>, clock: int)
    requires c.hasJournal && Recover(c, j, boot, feed, clock).verdict.Took?
    requires RecordsSound(c, j.records, Load(j.records, j.headerEpoch).epoch)
    ensures Inv(c, Recover(c, j, boot, feed, clock).state)
    ensures Recover(c, j, boot, feed, clock).state.epoch == NextEpoch(Load(j.records, j.headerEpoch).epoch)
  {
    hide Inv, RecordsSound, LoadedSound, Replayable, Load, Base, Replay, Distrust, Rebuild, Announce;
    var l := Load(j.records, j.headerEpoch);
    var epoch := NextEpoch(l.epoch);
    RecordsSoundLater(c, j.records, l.epoch, epoch);
    LoadSound(c, j.records, j.headerEpoch, epoch);
    BaseReplayable(c, l, j, boot);
    ReplayReplayable(c, Base(l, j, boot), l.order, feed, epoch);
    var replayed := Replay(c, Base(l, j, boot), l.order, feed);
    DistrustSound(c, replayed, l.outstanding, epoch);
    RebuildReplayable(c, Distrust(replayed, l.outstanding), epoch);
    var rebuilt := Rebuild(Distrust(replayed, l.outstanding));
    AnnounceInv(c, rebuilt, epoch, Later(Announce(rebuilt).watermark, clock));
    assert rebuilt.epoch == epoch && Announce(rebuilt).epoch == epoch by {
      AnnounceEpoch(c, rebuilt, epoch);
    }
  }

  lemma AnnounceEpoch(c: Config, s: State, epoch: nat)
    requires Replayable(c, s, epoch)
    ensures s.epoch == epoch && Announce(s).epoch == epoch
  {
    hide AllSound, Counted, EpochsAgree, RecordsSound;
  }

  lemma BlankInv(c: Config, boot: Boot)
    requires !c.hasJournal
    ensures Inv(c, Blank(boot))
  {
    hide Sound, Load;
  }

  lemma SurvivorSound(c: Config, s: State, keep: nat)
    requires Inv(c, s)
    ensures var j := Survivor(s.journal, keep);
      c.hasJournal ==>
        RecordsSound(c, j.records, Load(j.records, j.headerEpoch).epoch) && s.epoch <= Load(j.records, j.headerEpoch).epoch
  {
    hide Sound, Load, RecordSound;
    var j := Survivor(s.journal, keep);
    if c.hasJournal {
      assert j.records[..s.journal.synced] == s.journal.records[..s.journal.synced];
      LoadEpochPrefix(j.records, j.headerEpoch, s.journal.synced);
      RecordsSoundLater(c, s.journal.records, s.epoch, Load(j.records, j.headerEpoch).epoch);
    }
  }

  lemma RestartInv(c: Config, s: State, e: Event)
    requires Inv(c, s) && e.Restart? && Step(c, s, e).verdict.Took?
    ensures Inv(c, Step(c, s, e).state)
    ensures c.hasJournal ==> s.epoch < Step(c, s, e).state.epoch
  {
    hide Inv, RecordsSound, Load, Base, Replay, Distrust, Rebuild, Announce, Apply, Survivor;
    assert Unfold(c, s, e);
    if c.hasJournal {
      SurvivorSound(c, s, e.keep);
      RecoverInv(c, Survivor(s.journal, e.keep), e.boot, e.feed, e.clock);
    } else {
      BlankInv(c, e.boot);
    }
  }

  lemma StartInv(c: Config, boot: Boot)
    ensures Inv(c, Start(c, boot))
  {
    hide Inv, Base, Replay, Distrust, Rebuild, Announce, Apply, RecordSound;
    if c.hasJournal {
      RecoverInv(c, Journal([], 0, 0), boot, [], 0);
    } else {
      BlankInv(c, boot);
    }
  }

  // ---- runs -----------------------------------------------------------------

  /** Every recovery in the run succeeds. */
  ghost predicate Serves(c: Config, s: State, es: seq<Event>) {
    es == [] ||
    (Serves(c, s, es[..|es| - 1]) &&
     (es[|es| - 1].Restart? ==> Step(c, Exec(c, s, es[..|es| - 1]), es[|es| - 1]).verdict.Took?))
  }

  lemma EventInv(c: Config, s: State, e: Event)
    requires Inv(c, s) && (e.Restart? ==> Step(c, s, e).verdict.Took?)
    ensures Inv(c, Step(c, s, e).state)
  {
    hide Step, Inv;
    if e.Restart? {
      RestartInv(c, s, e);
    } else {
      StepInv(c, s, e);
    }
  }

  /** The invariant holds after every run. */
  lemma {:induction false} ExecInv(c: Config, s: State, es: seq<Event>)
    requires Inv(c, s) && Serves(c, s, es)
    ensures Inv(c, Exec(c, s, es))
  {
    hide Step, Inv;
    if es != [] {
      ExecInv(c, s, es[..|es| - 1]);
      EventInv(c, Exec(c, s, es[..|es| - 1]), es[|es| - 1]);
    }
  }
}
