/** Every resource counts its queues. */
module Counts {
  import opened Status
  import opened Entities
  import opened Mutations
  import opened Work
  import opened Machine
  import opened Recovery
  import opened Run
  import opened Steps
  import opened Reach
  import opened Names
  import Epochs
  import Deltas
  import Quiescence
  import Snapshots
  import Soundness
  import Occupancies
  import Provenances

  predicate Homed(s: State) {
    forall i :: i in s.queues ==> s.queues[i].def.resource in s.resources
  }

  predicate CountsExact(s: State) {
    forall r :: r in s.resources ==> s.resources[r].queueCount == |QueuesOf(s.queues, r)|
  }

  // ---- one mutation ---------------------------------------------------------

  /** A taken declaration adds one to its resource; nothing else counts. */
  predicate CountsAfter(s: State, r: Request, reply: Reply) {
    && reply.state.resources.Keys == s.resources.Keys
    && forall i :: i in s.resources ==> reply.state.resources[i].queueCount == s.resources[i].queueCount + Share(r, reply.verdict, i)
  }

  function Share(r: Request, v: Verdict, i: Id): nat {
    if v.Took? && r.kind.DeclareQueue? && r.payload.DeclarePayload? && r.payload.resource == i then 1 else 0
  }

  lemma InstallCounts(c: Config, s: State, now: int, r: Request, j: Journal, replaying: bool)
    requires r.kind.DeclareQueue? && r.payload.DeclarePayload? && r.payload.resource in s.resources
    ensures CountsAfter(s, r, Reply(Install(c, s, now, r, j, replaying), Took))
  {
    hide Score, Remembered, Machine.NewQueue, Provenances.Observe;
  }

  lemma SameResourcesCount(s: State, r: Request, reply: Reply)
    requires reply.state.resources == s.resources && !(reply.verdict.Took? && r.kind.DeclareQueue?)
    ensures CountsAfter(s, r, reply)
  {
  }

  lemma DeclareCounts(c: Config, s: State, now: int, r: Request, io: Io, replaying: bool)
    requires r.kind.DeclareQueue? && r.payload.DeclarePayload?
    ensures CountsAfter(s, r, ApplyDeclare(c, s, now, r, io, replaying))
  {
    hide CheckDeclaration, Commit, Score, Install, CountsAfter;
    var reply := ApplyDeclare(c, s, now, r, io, replaying);
    if reply.verdict.Took? {
      TakenHasResource(c, s, r, replaying);
      InstallCounts(c, s, now, r, Commit(c, s.journal, r, io).journal, replaying);
    } else {
      SameResourcesCount(s, r, reply);
    }
  }

  lemma ApplyCounts(c: Config, s: State, r: Request, clock: int, io: Io, replaying: bool)
    ensures CountsAfter(s, r, Apply(c, s, r, clock, io, replaying))
  {
    hide ApplyDeclare, ApplyExisting, Check, Score, CountsAfter;
    if !s.shuttingDown && Check(r).Ok? && r.kind.DeclareQueue? {
      assert PayloadMatches(r.kind, r.payload);
      DeclareCounts(c, s, Later(s.watermark, clock), r, io, replaying);
    } else {
      SameResourcesCount(s, r, Apply(c, s, r, clock, io, replaying));
    }
  }

  lemma ApplyKeepsCounts(c: Config, s: State, r: Request, clock: int, io: Io, replaying: bool)
    requires Homed(s) && CountsExact(s) && Counted(s)
    ensures var next := Apply(c, s, r, clock, io, replaying).state; Homed(next) && CountsExact(next)
  {
    hide Apply, Handled, CheckDeclaration, Check, Remembered, CheckPlacement, KeyOf, Homed, CountsExact, CountsAfter;
    var reply := Apply(c, s, r, clock, io, replaying);
    ApplyQueues(c, s, r, clock, io, replaying);
    ApplyNames(c, s, r, clock, io, replaying);
    ApplyCounts(c, s, r, clock, io, replaying);
    if reply.verdict.Took? && r.kind.DeclareQueue? {
      GrownKeys(c, s, r, replaying, reply);
      TakenHasResource(c, s, r, replaying);
      OneMoreCounted(s, reply, r, NameKey(r.payload.resource, r.payload.name));
    } else {
      SameKeysAfter(c, s, r, replaying, reply);
      SameCounted(s, reply, r);
    }
  }

  lemma OneMoreCounted(s: State, reply: Reply, r: Request, key: NameKey)
    requires Homed(s) && CountsExact(s) && CountsAfter(s, r, reply) && reply.verdict.Took? && r.kind.DeclareQueue?
    requires r.payload.DeclarePayload? && key.resource == r.payload.resource && key.resource in s.resources
    requires OneMore(s.queues, reply.state.queues, s.ids.queue, key)
    ensures Homed(reply.state) && CountsExact(reply.state)
  {
    hide QueuesOf;
    var next := reply.state;
    forall i | i in s.resources ensures next.resources[i].queueCount == |QueuesOf(next.queues, i)| {
      OneMoreOf(s.queues, next.queues, s.ids.queue, key, i);
    }
    forall i | i in next.queues ensures next.queues[i].def.resource in next.resources {
      assert KeyOf(next.queues[i]).resource == next.queues[i].def.resource;
      assert i in s.queues ==> KeyOf(s.queues[i]).resource == s.queues[i].def.resource;
    }
  }

  lemma SameCounted(s: State, reply: Reply, r: Request)
    requires Homed(s) && CountsExact(s) && CountsAfter(s, r, reply) && !(reply.verdict.Took? && r.kind.DeclareQueue?)
    requires SameKeys(s.queues, reply.state.queues)
    ensures Homed(reply.state) && CountsExact(reply.state)
  {
    forall i ensures QueuesOf(reply.state.queues, i) == QueuesOf(s.queues, i) {
      Snapshots.SameCounts(s.queues, reply.state.queues, i);
    }
    HomedOn(s, reply.state);
  }

  lemma HomedOn(s: State, next: State)
    requires Homed(s) && SameKeys(s.queues, next.queues) && s.resources.Keys <= next.resources.Keys
    ensures Homed(next)
  {
    forall i | i in next.queues ensures next.queues[i].def.resource in next.resources {
      assert KeyOf(next.queues[i]) == KeyOf(s.queues[i]);
    }
  }

  // ---- one call -------------------------------------------------------------

  lemma OtherCounts(c: Config, s: State, e: Event, next: State)
    requires Homed(s) && CountsExact(s) && ResourceSteps(s, e, next) && SameKeys(s.queues, next.queues) && !e.Mutate?
    ensures Homed(next) && CountsExact(next)
  {
    hide BackendsStep, QueuesOf, KeyOf, SameKeys;
    assert s.resources.Keys <= next.resources.Keys by {
      forall i | i in s.resources ensures i in next.resources {
        assert ResourceStep(s, e, next, i);
      }
    }
    HomedOn(s, next);
    forall i | i in next.resources ensures next.resources[i].queueCount == |QueuesOf(next.queues, i)| {
      Snapshots.SameCounts(s.queues, next.queues, i);
      if i in s.resources {
        assert ResourceStep(s, e, next, i);
      } else {
        NoQueuesYet(s, i);
      }
    }
  }

  lemma NoQueuesYet(s: State, i: Id)
    requires Homed(s) && i !in s.resources
    ensures QueuesOf(s.queues, i) == {}
  {
  }

  lemma StepKeepsCounts(c: Config, s: State, e: Event)
    requires Inv(c, s) && Homed(s) && CountsExact(s) && !e.Restart?
    ensures Homed(Step(c, s, e).state) && CountsExact(Step(c, s, e).state)
  {
    hide Step, Inv, QueueSteps, ResourceSteps, CoreStep, JournalStep, Counted, Homed, CountsExact, SameKeys;
    Epochs.InvCounted(c, s);
    if e.Mutate? {
      MutateKeepsCounts(c, s, e);
    } else {
      Deltas.StepDelta(c, s, e);
      OtherKeys(c, s, e, Step(c, s, e));
      OtherCounts(c, s, e, Step(c, s, e).state);
    }
  }

  lemma MutateKeepsCounts(c: Config, s: State, e: Event)
    requires Counted(s) && Homed(s) && CountsExact(s) && e.Mutate?
    ensures Homed(Step(c, s, e).state) && CountsExact(Step(c, s, e).state)
  {
    hide Homed, CountsExact, Counted, Apply, DeclareResource, GrantCapabilities, DeclareClass, DeclarePool, AddBackend, MarkDead, AdvanceEpoch,
      InvalidateEvidence, Refresh, Explain, Reserve, CommitPlan, AbortPlan, Compact, Shutdown, Recover;
    assert Unfold(c, s, e);
    ApplyKeepsCounts(c, s, e.request, e.clock, e.io, false);
  }

  // ---- the journal ----------------------------------------------------------

  /** Resources whose records can be read back. */
  function StoredResources(records: seq<Record>): set<Id> {
    set k | 0 <= k < |records| && records[k].ResourceState? && StorableResource(records[k].resource) :: records[k].resource.id
  }

  lemma {:induction false} LoadResources(records: seq<Record>, header: nat)
    ensures Load(records, header).resources.Keys == StoredResources(records)
  {
    hide StorableQueue, StorableResource, Restored, Decodable;
    if records != [] {
      LoadResources(records[..|records| - 1], header);
      StoredResourcesStep(records);
    }
  }

  lemma StoredResourcesStep(records: seq<Record>)
    requires records != []
    ensures var rec := records[|records| - 1];
      StoredResources(records) == StoredResources(records[..|records| - 1]) +
        if rec.ResourceState? && StorableResource(rec.resource) then {rec.resource.id} else {}
  {
    hide StorableResource;
    var n := |records| - 1;
    forall i ensures i in StoredResources(records) <==>
      i in StoredResources(records[..n]) || (records[n].ResourceState? && StorableResource(records[n].resource) && i == records[n].resource.id)
    {
      if i in StoredResources(records) {
        var k :| 0 <= k < |records| && records[k].ResourceState? && StorableResource(records[k].resource) && records[k].resource.id == i;
        assert k < n ==> records[..n][k] == records[k];
      }
      if i in StoredResources(records[..n]) {
        var k :| 0 <= k < n && records[..n][k].ResourceState? && StorableResource(records[..n][k].resource) && records[..n][k].resource.id == i;
        assert records[k] == records[..n][k];
      }
    }
  }

  /** Every queue the records restore finds its resource there. */
  predicate RecordsHomed(records: seq<Record>) {
    forall i :: i in StoredQueues(records) ==> StoredQueues(records)[i].def.resource in StoredResources(records)
  }

  /** What is on stable storage already holds every recorded queue and its
      resource. */
  predicate JournalHomed(j: Journal) {
    && j.synced <= |j.records|
    && RecordsHomed(j.records[..j.synced]) && Quiescence.AddsNoQueue(j.records[..j.synced], j.records)
  }

  lemma MoreRecordsHomed(records: seq<Record>, next: seq<Record>, n: nat)
    requires RecordsHomed(records) && Quiescence.AddsNoQueue(records, next) && |records| <= n <= |next|
    ensures RecordsHomed(next[..n])
  {
    hide StorableResource, StoredQueues;
    StoredUnchanged(records, next, n);
    forall r | r in StoredResources(records) ensures r in StoredResources(next[..n]) {
      var k :| 0 <= k < |records| && records[k].ResourceState? && StorableResource(records[k].resource) && records[k].resource.id == r;
      assert next[..n][k] == next[..|records|][k];
    }
  }

  lemma AddsNoQueueSplit(records: seq<Record>, next: seq<Record>, n: nat)
    requires Quiescence.AddsNoQueue(records, next) && |records| <= n <= |next|
    ensures Quiescence.AddsNoQueue(next[..n], next) && Quiescence.AddsNoQueue(records, next[..n])
  {
    assert next[..n][..|records|] == next[..|records|];
  }

  lemma AppendsHomed(j: Journal, k: Journal)
    requires JournalHomed(j) && Quiescence.AddsNoQueue(j.records, k.records) && (k.synced == j.synced || k.synced == |k.records|)
    ensures JournalHomed(k)
  {
    hide Quiescence.AddsNoQueue, RecordsHomed;
    var base := j.records[..j.synced];
    Quiescence.AddsNoQueueTwice(base, j.records, k.records);
    assert |j.records| <= |k.records| && k.records[..j.synced] == base by {
      SamePrefix(j.records, k.records, j.synced);
    }
    MoreRecordsHomed(base, k.records, k.synced);
    AddsNoQueueSplit(base, k.records, k.synced);
  }

  lemma SamePrefix(records: seq<Record>, next: seq<Record>, n: nat)
    requires Quiescence.AddsNoQueue(records, next) && n <= |records|
    ensures |records| <= |next| && next[..n] == records[..n]
  {
    assert next[..n] == next[..|records|][..n];
  }

  /** Every queue that a snapshot can carry has a resource that it can carry. */
  predicate HomesStorable(s: State) {
    forall i :: i in s.queues && StorableQueue(s.queues[i]) ==>
      s.queues[i].def.resource in s.resources && StorableResource(s.resources[s.queues[i].def.resource])
  }

  /** A snapshot restores every queue with its resource exactly then. */
  lemma SnapshotHomed(s: State)
    requires SelfKeyed(s)
    ensures RecordsHomed(Snapshot(s)) <==> HomesStorable(s)
  {
    hide Snapshot, StoredQueues, StoredResources, SelfKeyed, Load, StorableResource, StorableQueue;
    Snapshots.SnapshotReadsBack(s, 0);
    LoadStored(Snapshot(s), 0);
    LoadResources(Snapshot(s), 0);
    forall i | i in s.queues ensures Restored(s.queues[i]).def == s.queues[i].def {
      RestoredDefinition(s.queues[i]);
    }
    var queues := StoredQueues(Snapshot(s));
    assert queues.Keys == Snapshots.StorableQueues(s);
    forall i | i in queues ensures i in s.queues && queues[i].def == s.queues[i].def {
    }
  }

  lemma RestoredDefinition(q: Queue)
    ensures Restored(q).def == q.def
  {
    hide Reopened, Occupancies.Invalidate;
  }

  predicate CountInv(s: State) {
    Homed(s) && CountsExact(s) && JournalHomed(s.journal)
  }

  lemma JournalStepHomed(c: Config, s: State, e: Event, next: State)
    requires JournalStep(c, s, e, next) && SelfKeyed(s) && Homed(s) && JournalHomed(s.journal)
    requires e.CompactJournal? ==> HomesStorable(s)
    ensures JournalHomed(next.journal)
  {
    hide Snapshot, HomesStorable, Homed, SelfKeyed, RecordsHomed, RecordStep;
    if e.CompactJournal? {
      SnapshotHomed(s);
      var records := Snapshot(s);
      assert records[..|records|] == records;
    } else {
      StepAddsNoQueue(c, s, e, next);
      AppendsHomed(s.journal, next.journal);
    }
  }

  // ---- recovery -------------------------------------------------------------

  lemma RebuildCounts(s: State)
    requires SelfKeyed(s) && Homed(s)
    ensures Homed(Rebuild(s)) && CountsExact(Rebuild(s))
  {
    hide FreshIds, NamesOf, QueuesOf;
  }

  lemma BaseCounts(c: Config, l: Loaded, j: Journal, boot: Boot)
    requires LoadedSound(c, l, NextEpoch(l.epoch)) && forall i :: i in l.queues ==> l.queues[i].def.resource in l.resources
    ensures Homed(Base(l, j, boot)) && CountsExact(Base(l, j, boot))
  {
    hide Rebuild, Soundness.Sound, CommitKind, AllDead, CountsExact;
    var epoch := NextEpoch(l.epoch);
    var raw := Blank(boot).(
      epoch := epoch, incarnation := l.incarnation, journal := j, queues := l.queues,
      resources := AllAdopted(l.resources, epoch));
    RebuildCounts(raw);
  }

  lemma {:induction false} ReplayCounts(c: Config, s: State, order: seq<Request>, feed: seq<Moment>, epoch: nat)
    requires Homed(s) && CountsExact(s) && Replayable(c, s, epoch)
    ensures Homed(Replay(c, s, order, feed)) && CountsExact(Replay(c, s, order, feed))
  {
    hide Replayable, Homed, CountsExact, Apply, Counted, SelfKeyed;
    if order != [] {
      var n := |order| - 1;
      var before := Replay(c, s, order[..n], feed);
      ReplayCounts(c, s, order[..n], feed, epoch);
      ReplayReplayable(c, s, order[..n], feed, epoch);
      ReplayableSelfKeyed(c, before, epoch);
      ApplyKeepsCounts(c, before, order[n], MomentAt(feed, n).clock, MomentAt(feed, n).io, true);
    }
  }

  lemma FinishCounts(s: State, outstanding: map<Attempt, Request>)
    requires Homed(s) && SelfKeyed(s)
    ensures var next := Announce(Rebuild(Distrust(s, outstanding))); Homed(next) && CountsExact(next)
  {
    hide Rebuild, Orphaned;
    RebuildCounts(Distrust(s, outstanding));
  }

  lemma LoadedHomed(records: seq<Record>, header: nat)
    requires RecordsHomed(records)
    ensures var l := Load(records, header); forall i :: i in l.queues ==> l.queues[i].def.resource in l.resources
  {
    hide Load, StoredQueues, StoredResources;
    LoadStored(records, header);
    LoadResources(records, header);
  }

  lemma RecoverCounts(c: Config, j: Journal, boot: Boot, feed: seq<Moment>, clock: int)
    requires c.hasJournal && Recover(c, j, boot, feed, clock).verdict.Took?
    requires RecordsSound(c, j.records, Load(j.records, j.headerEpoch).epoch) && RecordsHomed(j.records)
    ensures CountInv(Recover(c, j, boot, feed, clock).state)
  {
    hide RecordsSound, LoadedSound, Replayable, Load, Base, Replay, Distrust, Rebuild, Homed, CountsExact, RecordsHomed, SelfKeyed, Counted,
      Quiescence.AddsNoQueue;
    var l := Load(j.records, j.headerEpoch);
    var epoch := NextEpoch(l.epoch);
    RecordsSoundLater(c, j.records, l.epoch, epoch);
    LoadSound(c, j.records, j.headerEpoch, epoch);
    LoadedHomed(j.records, j.headerEpoch);
    BaseReplayable(c, l, j, boot);
    BaseCounts(c, l, j, boot);
    var base := Base(l, j, boot);
    ReplayReplayable(c, base, l.order, feed, epoch);
    ReplayCounts(c, base, l.order, feed, epoch);
    var replayed := Replay(c, base, l.order, feed);
    ReplayableSelfKeyed(c, replayed, epoch);
    FinishCounts(replayed, l.outstanding);
    var next := Recover(c, j, boot, feed, clock).state;
    var done := Announce(Rebuild(Distrust(replayed, l.outstanding)));
    AnyTimeCounts(done, Later(done.watermark, clock));
    Quiescence.RecoverAddsNoQueue(c, j, boot, feed, clock);
    RecoveredHomed(j.records, next.journal);
  }

  lemma AnyTimeCounts(s: State, watermark: int)
    requires Homed(s) && CountsExact(s)
    ensures Homed(s.(watermark := watermark)) && CountsExact(s.(watermark := watermark))
  {
    hide QueuesOf;
  }

  lemma RecoveredHomed(records: seq<Record>, k: Journal)
    requires RecordsHomed(records) && Quiescence.AddsNoQueue(records, k.records) && k.synced == |k.records|
    ensures JournalHomed(k)
  {
    hide RecordsHomed;
    MoreRecordsHomed(records, k.records, k.synced);
    AddsNoQueueSplit(records, k.records, k.synced);
  }

  lemma SurvivorHomed(j: Journal, keep: nat)
    requires JournalHomed(j)
    ensures RecordsHomed(Survivor(j, keep).records)
  {
    hide RecordsHomed, Quiescence.AddsNoQueue;
    var kept := Survivor(j, keep).records;
    MoreRecordsHomed(j.records[..j.synced], j.records, |kept|);
    assert j.records[..|kept|] == kept;
  }

  lemma BlankCounts(boot: Boot)
    ensures CountInv(Blank(boot)) && RecordsHomed([])
  {
  }

  lemma RestartCounts(c: Config, s: State, e: Event)
    requires Inv(c, s) && CountInv(s) && e.Restart? && Step(c, s, e).verdict.Took?
    ensures CountInv(Step(c, s, e).state)
  {
    hide RecordsSound, Load, Base, Replay, Distrust, Rebuild, Announce, Apply, Survivor, Inv, Homed, CountsExact, JournalHomed, RecordsHomed;
    assert Unfold(c, s, e);
    if c.hasJournal {
      SurvivorSound(c, s, e.keep);
      SurvivorHomed(s.journal, e.keep);
      RecoverCounts(c, Survivor(s.journal, e.keep), e.boot, e.feed, e.clock);
    } else {
      BlankCounts(e.boot);
    }
  }

  lemma StartCounts(c: Config, boot: Boot)
    ensures CountInv(Start(c, boot))
  {
    hide Inv, Base, Replay, Distrust, Rebuild, Announce, Apply, CountInv, RecordsHomed, RecordSound;
    BlankCounts(boot);
    if c.hasJournal {
      RecoverCounts(c, Journal([], 0, 0), boot, [], 0);
    }
  }

  // ---- runs -----------------------------------------------------------------

  predicate ResourcesStorable(s: State) {
    forall i :: i in s.resources ==> StorableResource(s.resources[i])
  }

  /** Whenever the journal is compacted, the resource of every queue that can be
      stored can be stored. */
  ghost predicate Legible(c: Config, s: State, es: seq<Event>) {
    es == [] ||
    (Legible(c, s, es[..|es| - 1]) && (es[|es| - 1].CompactJournal? ==> HomesStorable(Exec(c, s, es[..|es| - 1]))))
  }

  /** The condition is exact: compaction and recovery keep every surviving queue
      with its resource if and only if it holds. What survives is counted either
      way. */
  lemma HomesLastIff(c: Config, s: State, io: Io, keep: nat, boot: Boot, feed: seq<Moment>, clock: int)
    requires c.hasJournal && Inv(c, s) && NameInv(c, s) && s.epoch < COUNTER_MAX && Step(c, s, CompactJournal(io)).verdict.Took?
    ensures var next := Step(c, Step(c, s, CompactJournal(io)).state, Restart(keep, boot, feed, clock)).state;
      CountsExact(next) && (Homed(next) <==> HomesStorable(s))
  {
    hide Step, Inv, NameInv, StorableResource, StorableQueue, QueuesOf, Snapshots.Revalidated, Indexed, FreshIds, Lifeless;
    Snapshots.CompactThenRecoverExactly(c, s, io, keep, boot, feed, clock);
    var next := Step(c, Step(c, s, CompactJournal(io)).state, Restart(keep, boot, feed, clock)).state;
    forall i | i in s.queues ensures Snapshots.Revalidated(s.queues[i]).def == s.queues[i].def {
      Snapshots.RevalidatedQueue(s.queues[i]);
    }
    forall i | i in s.queues && StorableQueue(s.queues[i])
      ensures i in next.queues && next.queues[i].def.resource == s.queues[i].def.resource
    {
    }
    forall i | i in next.queues ensures i in s.queues && StorableQueue(s.queues[i]) {
    }
  }

  lemma {:induction false} ExecCounts(c: Config, s: State, es: seq<Event>)
    requires Inv(c, s) && CountInv(s) && Serves(c, s, es) && Legible(c, s, es)
    ensures CountInv(Exec(c, s, es))
  {
    hide Step, Inv, Homed, CountsExact, JournalHomed, HomesStorable, QueueSteps, ResourceSteps, CoreStep, JournalStep, Counted, SelfKeyed;
    if es != [] {
      var n := |es| - 1;
      var before := Exec(c, s, es[..n]);
      ExecCounts(c, s, es[..n]);
      ExecInv(c, s, es[..n]);
      if es[n].Restart? {
        RestartCounts(c, before, es[n]);
      } else {
        StepKeepsCounts(c, before, es[n]);
        InvSelfKeyed(c, before);
        Epochs.InvCounted(c, before);
        Deltas.StepDelta(c, before, es[n]);
        JournalStepHomed(c, before, es[n], Step(c, before, es[n]).state);
      }
    }
  }

  /** In every reachable state each queue's resource exists and each resource's
      counter is the number of its queues, so rebuilding changes no resource. */
  lemma CountsAgree(c: Config, boot: Boot, es: seq<Event>, r: Id)
    requires Serves(c, Start(c, boot), es) && Legible(c, Start(c, boot), es) && r in Exec(c, Start(c, boot), es).resources
    ensures var s := Exec(c, Start(c, boot), es);
      && s.resources[r].queueCount == |QueuesOf(s.queues, r)|
      && r in Rebuild(s).resources && Rebuild(s).resources[r] == s.resources[r]
      && Homed(s)
  {
    hide Step, Inv, Start, JournalHomed, NamesOf, FreshIds, QueuesOf, Legible, Homed;
    StartInv(c, boot);
    StartCounts(c, boot);
    ExecInv(c, Start(c, boot), es);
    ExecCounts(c, Start(c, boot), es);
    InvSelfKeyed(c, Exec(c, Start(c, boot), es));
  }
}
