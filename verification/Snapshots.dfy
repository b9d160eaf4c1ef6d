/** Compacting the journal and recovering from the snapshot revalidates the
    state: it keeps what is durable and distrusts what is not. */
module Snapshots {
  import opened Entities
  import opened Work
  import opened Machine
  import opened Recovery
  import opened Run
  import opened Steps
  import opened Reach
  import opened Extremes
  import Names
  import Soundness
  import Occupancies

  /** Every record of the state decodes to what is encoded for it. */
  predicate Storable(s: State) {
    && (forall i :: i in s.queues ==> StorableQueue(s.queues[i]))
    && (forall i :: i in s.resources ==> StorableResource(s.resources[i]))
  }

  /** The resources and the queues whose records decode to what is encoded. */
  function StorableResources(s: State): set<Id> {
    set i | i in s.resources && StorableResource(s.resources[i])
  }

  function StorableQueues(s: State): set<Id> {
    set i | i in s.queues && StorableQueue(s.queues[i])
  }

  /** Queues are always storable when the configured limits respect the format's. */
  lemma QueuesAreStorable(c: Config, s: State, i: Id)
    requires Inv(c, s) && i in s.queues && c.policy.maxEvidence <= MAX_EVIDENCE && c.limits.maxMemo <= MAX_MEMO
    ensures StorableQueue(s.queues[i])
  {
    hide Counted, EpochsAgree, RecordsSound, EpochStored, Soundness.Coherent, Soundness.Dated;
  }

  // ---- reading a snapshot back ----------------------------------------------

  /** What has been read after the epoch record and some of the identities. */
  function PartlyLoaded(s: State, header: nat, resources: set<Id>, queues: set<Id>): Loaded
    requires resources <= s.resources.Keys && queues <= s.queues.Keys
  {
    Loaded(
      if s.epoch > header then s.epoch else header, s.incarnation + 1,
      map i | i in resources :: s.resources[i], map i | i in queues :: Restored(s.queues[i]), map[], [])
  }

  function Members(order: seq<Id>): set<Id> {
    set k | 0 <= k < |order| :: order[k]
  }

  lemma LoadOne(records: seq<Record>, rec: Record, header: nat)
    ensures Load(records + [rec], header) == Absorb(Load(records, header), rec)
  {
    hide Absorb;
    assert (records + [rec])[..|records|] == records;
  }

  lemma AbsorbResource(s: State, header: nat, done: set<Id>, i: Id)
    requires SelfKeyed(s) && done <= s.resources.Keys && i in s.resources
    ensures Absorb(PartlyLoaded(s, header, done, {}), ResourceState(s.resources[i])) ==
      PartlyLoaded(s, header, done + ({i} * StorableResources(s)), {})
  {
    hide StorableResource, StorableQueue, Restored;
  }

  lemma AbsorbQueue(s: State, header: nat, resources: set<Id>, done: set<Id>, i: Id)
    requires SelfKeyed(s) && resources <= s.resources.Keys && done <= s.queues.Keys && i in s.queues
    ensures Absorb(PartlyLoaded(s, header, resources, done), QueueState(s.queues[i])) ==
      PartlyLoaded(s, header, resources, done + ({i} * StorableQueues(s)))
  {
    hide StorableResource, StorableQueue, Restored;
  }

  lemma MembersStep(order: seq<Id>)
    requires order != []
    ensures Members(order) == Members(order[..|order| - 1]) + {order[|order| - 1]}
  {
    var n := |order| - 1;
    forall i ensures i in Members(order) <==> i in Members(order[..n]) || i == order[n] {
      if i in Members(order) {
        var k :| 0 <= k < |order| && order[k] == i;
        if k < n {
          assert order[..n][k] == i;
        }
      }
    }
  }

  lemma {:induction false} LoadResourceStates(s: State, header: nat, order: seq<Id>)
    requires SelfKeyed(s) && (forall k :: 0 <= k < |order| ==> order[k] in s.resources)
    ensures Load([EpochState(s.boot, s.epoch, s.incarnation)] + ResourceStates(s.resources, order), header) ==
      PartlyLoaded(s, header, Members(order) * StorableResources(s), {})
  {
    hide SelfKeyed, PartlyLoaded, Absorb, StorableResource;
    var head := [EpochState(s.boot, s.epoch, s.incarnation)];
    if order == [] {
      assert head + ResourceStates(s.resources, order) == head && Members(order) * StorableResources(s) == {};
      LoadHead(s, header);
    } else {
      var n := |order| - 1;
      MembersStep(order);
      LoadResourceStates(s, header, order[..n]);
      var before := head + ResourceStates(s.resources, order[..n]);
      assert head + ResourceStates(s.resources, order) == before + [ResourceState(s.resources[order[n]])];
      LoadOne(before, ResourceState(s.resources[order[n]]), header);
      AbsorbResource(s, header, Members(order[..n]) * StorableResources(s), order[n]);
      Distribute(Members(order[..n]), order[n], StorableResources(s));
    }
  }

  lemma Distribute(a: set<Id>, i: Id, b: set<Id>)
    ensures (a + {i}) * b == a * b + {i} * b
  {
  }

  lemma LoadHead(s: State, header: nat)
    ensures Load([EpochState(s.boot, s.epoch, s.incarnation)], header) == PartlyLoaded(s, header, {}, {})
  {
    hide StorableResource, StorableQueue, Restored;
    assert Load([], header) == Loaded(header, 1, map[], map[], map[], []);
    LoadOne([], EpochState(s.boot, s.epoch, s.incarnation), header);
  }

  lemma {:induction false} LoadQueueStates(s: State, header: nat, resources: set<Id>, head: seq<Record>, order: seq<Id>)
    requires SelfKeyed(s) && resources <= s.resources.Keys && (forall k :: 0 <= k < |order| ==> order[k] in s.queues)
    requires Load(head, header) == PartlyLoaded(s, header, resources, {})
    ensures Load(head + QueueStates(s.queues, order), header) == PartlyLoaded(s, header, resources, Members(order) * StorableQueues(s))
  {
    hide SelfKeyed, PartlyLoaded, Absorb, Load, StorableQueue;
    if order == [] {
      assert head + QueueStates(s.queues, order) == head && Members(order) * StorableQueues(s) == {};
    } else {
      var n := |order| - 1;
      MembersStep(order);
      LoadQueueStates(s, header, resources, head, order[..n]);
      var before := head + QueueStates(s.queues, order[..n]);
      assert head + QueueStates(s.queues, order) == before + [QueueState(s.queues[order[n]])];
      LoadOne(before, QueueState(s.queues[order[n]]), header);
      AbsorbQueue(s, header, resources, Members(order[..n]) * StorableQueues(s), order[n]);
      Distribute(Members(order[..n]), order[n], StorableQueues(s));
    }
  }

  lemma AscendingComplete(ids: set<Id>)
    ensures Members(Ascending(ids)) == ids
    ensures forall k :: 0 <= k < |Ascending(ids)| ==> Ascending(ids)[k] in ids
  {
    hide Ascending;
    forall i ensures i in Members(Ascending(ids)) <==> i in ids {
      AscendingMembers(ids, i);
    }
    forall k | 0 <= k < |Ascending(ids)| ensures Ascending(ids)[k] in ids {
      AscendingMembers(ids, Ascending(ids)[k]);
    }
  }

  lemma StorableAmong(s: State)
    ensures StorableResources(s) <= s.resources.Keys && StorableQueues(s) <= s.queues.Keys
    ensures s.resources.Keys * StorableResources(s) == StorableResources(s) && s.queues.Keys * StorableQueues(s) == StorableQueues(s)
    ensures Storable(s) <==> StorableResources(s) == s.resources.Keys && StorableQueues(s) == s.queues.Keys
  {
    hide StorableResource, StorableQueue;
  }

  /** A snapshot of any state reads back as exactly its storable resources and
      its storable queues, restored. */
  lemma SnapshotReadsBack(s: State, header: nat)
    requires SelfKeyed(s)
    ensures StorableResources(s) <= s.resources.Keys && StorableQueues(s) <= s.queues.Keys
    ensures Load(Snapshot(s), header) == PartlyLoaded(s, header, StorableResources(s), StorableQueues(s))
  {
    hide SelfKeyed, PartlyLoaded, Load, Ascending, ResourceStates, QueueStates, Members, StorableResources, StorableQueues;
    StorableAmong(s);
    AscendingComplete(s.resources.Keys);
    AscendingComplete(s.queues.Keys);
    LoadResourceStates(s, header, Ascending(s.resources.Keys));
    LoadQueueStates(s, header, StorableResources(s),
      [EpochState(s.boot, s.epoch, s.incarnation)] + ResourceStates(s.resources, Ascending(s.resources.Keys)), Ascending(s.queues.Keys));
  }

  /** The part of a state that a snapshot of it can carry. */
  function Carried(s: State): State {
    s.(resources := map i | i in s.resources && StorableResource(s.resources[i]) :: s.resources[i],
       queues := map i | i in s.queues && StorableQueue(s.queues[i]) :: s.queues[i])
  }

  lemma CarriedLoads(s: State, header: nat)
    ensures StorableResources(s) <= s.resources.Keys && StorableQueues(s) <= s.queues.Keys
    ensures Carried(s).resources.Keys == StorableResources(s) && Carried(s).queues.Keys == StorableQueues(s)
    ensures PartlyLoaded(s, header, StorableResources(s), StorableQueues(s)) ==
      PartlyLoaded(Carried(s), header, Carried(s).resources.Keys, Carried(s).queues.Keys)
  {
    hide StorableResource, StorableQueue, Restored;
  }

  // ---- revalidation ---------------------------------------------------------

  /** What recovery makes of one queue of a snapshot. */
  function Revalidated(q: Queue): Queue {
    Distrusted(Restored(q), false)
  }

  /** Everything durable is as it was; occupancy is marked as of before a
      restart, the queue is stale, a completed drain is demoted and every drain's
      evidence has to be collected again. */
  lemma RevalidatedQueue(q: Queue)
    ensures var next := Revalidated(q);
      && next.def == q.def && next.lifecycle == q.lifecycle && next.fence == q.fence && next.memo == q.memo
      && next.failure == q.failure && next.applied == q.applied
      && next.flags == Flags(true, q.flags.fenced)
      && next.occupancy == (if q.occupancy.present then q.occupancy.(freshness := StaleRestart) else q.occupancy)
      && next.drain == (if q.drain.phase.Idle? then q.drain
           else q.drain.(phase := if q.drain.phase.Completed? then EvidencePending else q.drain.phase,
                         evidence := q.drain.evidence.(revalidated := false)))
  {
  }

  /** The state recovery reaches from the snapshot of s. */
  ghost predicate Revalidates(s: State, next: State, boot: Boot) {
    && next.epoch == s.epoch + 1 && next.incarnation == s.incarnation + 1 && next.boot == boot && next.healthy && !next.shuttingDown
    && next.queues == (map i | i in s.queues :: Revalidated(s.queues[i]))
    && next.names == s.names && next.ids.queue == s.ids.queue
    && next.resources.Keys == s.resources.Keys
    && (forall i :: i in s.resources ==>
        next.resources[i] == InEpoch(Lifeless(s.resources[i]), s.epoch + 1).(queueCount := |QueuesOf(s.queues, i)|))
    && next.plans == map[] && next.publishers == map[]
  }

  lemma RevalidatedKeys(s: State, queues: map<Id, Queue>)
    requires SelfKeyed(s) && queues == map i | i in s.queues :: Revalidated(s.queues[i])
    ensures Names.SameKeys(s.queues, queues) && forall i :: i in queues ==> queues[i].def.id == i
  {
    hide Occupancies.Invalidate, Reopened;
  }

  lemma SameCounts(queues: map<Id, Queue>, next: map<Id, Queue>, i: Id)
    requires Names.SameKeys(queues, next)
    ensures QueuesOf(next, i) == QueuesOf(queues, i)
  {
  }

  /** The fields of a state that recovery sets once and for all. */
  predicate NewLife(s: State, next: State, boot: Boot) {
    && next.epoch == s.epoch + 1 && next.incarnation == s.incarnation + 1 && next.boot == boot && next.healthy && !next.shuttingDown
    && next.plans == map[] && next.publishers == map[]
  }

  /** The resources of a new life, up to their queue counts. */
  predicate Transferred(s: State, resources: map<Id, Resource>) {
    && resources.Keys == s.resources.Keys
    && forall i :: i in s.resources ==> SameButCount(InEpoch(Lifeless(s.resources[i]), s.epoch + 1), resources[i])
  }

  lemma BaseOfSnapshot(s: State, j: Journal, boot: Boot)
    requires s.epoch >= 1 && j.headerEpoch <= s.epoch
    ensures var l := PartlyLoaded(s, j.headerEpoch, s.resources.Keys, s.queues.Keys);
      && NewLife(s, Base(l, j, boot), boot) && Transferred(s, Base(l, j, boot).resources)
      && Base(l, j, boot).queues == map i | i in s.queues :: Restored(s.queues[i])
  {
    hide Restored, NamesOf, FreshIds, QueuesOf, AllDead;
  }

  lemma DistrustBase(s: State, base: State, boot: Boot)
    requires NewLife(s, base, boot) && Transferred(s, base.resources) && base.queues == map i | i in s.queues :: Restored(s.queues[i])
    ensures var next := Distrust(base, map[]);
      NewLife(s, next, boot) && Transferred(s, next.resources) && next.queues == map i | i in s.queues :: Revalidated(s.queues[i])
  {
    hide Restored, Distrusted, SameButCount;
  }

  lemma RebuildBase(s: State, raw: State, boot: Boot)
    requires NewLife(s, raw, boot) && Transferred(s, raw.resources) && SelfKeyed(s)
    ensures var next := Rebuild(raw);
      && NewLife(s, next, boot) && Transferred(s, next.resources) && next.queues == raw.queues
      && next.names == NamesOf(raw.queues) && next.ids == FreshIds(next.resources, raw.queues)
      && forall i :: i in s.resources ==> next.resources[i].queueCount == |QueuesOf(raw.queues, i)|
  {
    hide NamesOf, FreshIds, QueuesOf, AllDead;
    FreshIdsCount(raw.resources, Rebuild(raw).resources, raw.queues);
  }

  /** Recovery without commits or open attempts, step by step. */
  lemma RecoverSnapshot(c: Config, s: State, j: Journal, boot: Boot, feed: seq<Moment>, clock: int)
    requires c.hasJournal && s.epoch < COUNTER_MAX && j.headerEpoch <= s.epoch && s.epoch >= 1 && SelfKeyed(s)
    requires Load(j.records, j.headerEpoch) == PartlyLoaded(s, j.headerEpoch, s.resources.Keys, s.queues.Keys)
    ensures Recover(c, j, boot, feed, clock).verdict.Took?
    ensures var next := Recover(c, j, boot, feed, clock).state;
      && NewLife(s, next, boot) && Transferred(s, next.resources)
      && next.queues == (map i | i in s.queues :: Revalidated(s.queues[i]))
      && next.names == NamesOf(next.queues) && next.ids == FreshIds(next.resources, next.queues)
      && forall i :: i in s.resources ==> next.resources[i].queueCount == |QueuesOf(next.queues, i)|
  {
    hide Load, Apply, Base, Distrust, Rebuild, Restored, Revalidated, NamesOf, FreshIds, QueuesOf, Transferred, SelfKeyed;
    var l := Load(j.records, j.headerEpoch);
    var base := Base(l, j, boot);
    BaseOfSnapshot(s, j, boot);
    assert l.order == [] && l.outstanding == map[];
    assert Replay(c, base, l.order, feed) == base;
    DistrustBase(s, base, boot);
    RebuildBase(s, Distrust(base, l.outstanding), boot);
  }

  /** Counting queues again draws the same identities. */
  lemma FreshIdsCount(resources: map<Id, Resource>, next: map<Id, Resource>, queues: map<Id, Queue>)
    requires next.Keys == resources.Keys
    requires forall i :: i in resources ==> SameButCount(resources[i], next[i])
    ensures FreshIds(next, queues) == FreshIds(resources, queues)
  {
    assert (set i | i in next :: next[i].id) == (set i | i in resources :: resources[i].id);
    assert (set i, k | i in next && 0 <= k < |next[i].classes| :: next[i].classes[k].id) ==
      (set i, k | i in resources && 0 <= k < |resources[i].classes| :: resources[i].classes[k].id);
    assert (set i, k | i in next && 0 <= k < |next[i].pools| :: next[i].pools[k].id) ==
      (set i, k | i in resources && 0 <= k < |resources[i].pools| :: resources[i].pools[k].id);
    assert (set i, k | i in next && 0 <= k < |next[i].backends| :: next[i].backends[k].id) ==
      (set i, k | i in resources && 0 <= k < |resources[i].backends| :: resources[i].backends[k].id);
  }

  /** The state recovery reaches from the snapshot of s: exactly the storable
      queues, revalidated, and exactly the storable resources. */
  ghost predicate Retains(c: Config, s: State, next: State, boot: Boot) {
    && NewLife(s, next, boot)
    && next.queues == (map i | i in s.queues && StorableQueue(s.queues[i]) :: Revalidated(s.queues[i]))
    && next.resources.Keys == StorableResources(s)
    && (forall i :: i in next.resources && i in s.resources ==>
        next.resources[i] == InEpoch(Lifeless(s.resources[i]), s.epoch + 1).(queueCount := |QueuesOf(next.queues, i)|))
    && Names.Indexed(c, next) && next.ids == FreshIds(next.resources, next.queues)
  }

  /** Compacting any reachable state and recovering from the snapshot, whatever
      the crash keeps beyond it: a resource or a queue survives if and only if its
      record is storable, and survives revalidated. */
  lemma CompactThenRecoverExactly(c: Config, s: State, io: Io, keep: nat, boot: Boot, feed: seq<Moment>, clock: int)
    requires c.hasJournal && Inv(c, s) && Names.NameInv(c, s) && s.epoch < COUNTER_MAX
    requires Step(c, s, CompactJournal(io)).verdict.Took?
    ensures var compacted := Step(c, s, CompactJournal(io)).state;
      var e := Restart(keep, boot, feed, clock);
      Step(c, compacted, e).verdict.Took? && Retains(c, s, Step(c, compacted, e).state, boot)
  {
    hide Step, Inv, Names.NameInv, Retains, Recover, Snapshot, Load, PartlyLoaded, SelfKeyed, Carried, StorableResources, StorableQueues;
    var compacted := Step(c, s, CompactJournal(io)).state;
    var j := Journal(Snapshot(s), |Snapshot(s)|, s.journal.headerEpoch);
    CompactedJournal(c, s, io);
    CompactedNames(c, s, io);
    RestartRecovers(c, compacted, keep, boot, feed, clock);
    Names.InvSelfKeyed(c, s);
    InvHeader(c, s);
    SnapshotReadsBack(s, j.headerEpoch);
    CarriedLoads(s, j.headerEpoch);
    CarriedRest(s);
    RecoverSnapshot(c, Carried(s), j, boot, feed, clock);
    Names.RestartNames(c, compacted, Restart(keep, boot, feed, clock));
    RetainsFrom(c, s, Recover(c, j, boot, feed, clock).state, boot);
  }

  lemma CompactedNames(c: Config, s: State, io: Io)
    requires Inv(c, s) && Names.NameInv(c, s)
    ensures var next := Step(c, s, CompactJournal(io)).state; Inv(c, next) && Names.NameInv(c, next)
  {
    hide Step, Inv, Names.NameInv;
    var es := [CompactJournal(io)];
    assert es[..0] == [];
    assert Exec(c, s, es) == Step(c, s, es[0]).state;
    ExecInv(c, s, es);
    Names.ExecNames(c, s, es);
  }

  lemma CarriedRest(s: State)
    requires SelfKeyed(s)
    ensures SelfKeyed(Carried(s)) && Carried(s).epoch == s.epoch
  {
    hide StorableResource, StorableQueue;
  }

  lemma RetainsFrom(c: Config, s: State, next: State, boot: Boot)
    requires var t := Carried(s);
      && NewLife(t, next, boot) && Transferred(t, next.resources)
      && next.queues == (map i | i in t.queues :: Revalidated(t.queues[i]))
      && next.ids == FreshIds(next.resources, next.queues)
      && forall i :: i in t.resources ==> next.resources[i].queueCount == |QueuesOf(next.queues, i)|
    requires Names.NameInv(c, next)
    ensures Retains(c, s, next, boot)
  {
    hide Revalidated, QueuesOf, FreshIds, Names.Indexed, Names.RecordsGood, Lifeless, StorableResource, StorableQueue;
    assert Carried(s).resources.Keys == StorableResources(s);
  }

  /** When every record is storable nothing is lost: names and numbering too are
      as they were. */
  lemma CompactThenRecover(c: Config, s: State, io: Io, keep: nat, boot: Boot, feed: seq<Moment>, clock: int)
    requires c.hasJournal && Inv(c, s) && Names.NameInv(c, s) && Storable(s) && s.epoch < COUNTER_MAX
    requires Step(c, s, CompactJournal(io)).verdict.Took?
    ensures var compacted := Step(c, s, CompactJournal(io)).state;
      var e := Restart(keep, boot, feed, clock);
      Step(c, compacted, e).verdict.Took? && Revalidates(s, Step(c, compacted, e).state, boot)
  {
    hide Step, Inv, Names.NameInv, Storable, Retains, Revalidates;
    CompactThenRecoverExactly(c, s, io, keep, boot, feed, clock);
    Names.InvSelfKeyed(c, s);
    RetainedAll(c, s, Step(c, Step(c, s, CompactJournal(io)).state, Restart(keep, boot, feed, clock)).state, boot);
  }

  lemma RetainedAll(c: Config, s: State, next: State, boot: Boot)
    requires Retains(c, s, next, boot) && Storable(s) && Names.NameInv(c, s) && SelfKeyed(s)
    ensures Revalidates(s, next, boot)
  {
    hide Revalidated, NamesOf, QueuesOf, FreshIds, Names.Indexed, Names.RecordsGood, Names.SameKeys, Lifeless, SelfKeyed, StorableResource, StorableQueue;
    assert next.resources.Keys == s.resources.Keys by {
      StorableAmong(s);
    }
    assert next.queues == (map i | i in s.queues :: Revalidated(s.queues[i]));
    RevalidatedKeys(s, next.queues);
    forall i | i in s.resources ensures QueuesOf(next.queues, i) == QueuesOf(s.queues, i) {
      SameCounts(s.queues, next.queues, i);
    }
    SameIndex(c, s, next);
  }

  /** Compaction and recovery keep every resource and every queue if and only if
      every record is storable. */
  lemma NothingLostIff(c: Config, s: State, io: Io, keep: nat, boot: Boot, feed: seq<Moment>, clock: int)
    requires c.hasJournal && Inv(c, s) && Names.NameInv(c, s) && s.epoch < COUNTER_MAX
    requires Step(c, s, CompactJournal(io)).verdict.Took?
    ensures var next := Step(c, Step(c, s, CompactJournal(io)).state, Restart(keep, boot, feed, clock)).state;
      && (forall i :: i in next.resources <==> i in s.resources && StorableResource(s.resources[i]))
      && (forall i :: i in next.queues <==> i in s.queues && StorableQueue(s.queues[i]))
      && (next.resources.Keys == s.resources.Keys && next.queues.Keys == s.queues.Keys <==> Storable(s))
  {
    hide Step, Inv, Names.NameInv, StorableResource, StorableQueue, Revalidated, Lifeless, Names.Indexed, FreshIds, QueuesOf;
    CompactThenRecoverExactly(c, s, io, keep, boot, feed, clock);
    StorableAmong(s);
    var next := Step(c, Step(c, s, CompactJournal(io)).state, Restart(keep, boot, feed, clock)).state;
    assert next.queues.Keys == StorableQueues(s);
  }

  lemma InvHeader(c: Config, s: State)
    requires Inv(c, s)
    ensures s.journal.headerEpoch <= s.epoch && s.epoch >= 1
  {
    hide Counted, AllSound, RecordsSound, Load;
  }

  lemma CompactedJournal(c: Config, s: State, io: Io)
    requires Step(c, s, CompactJournal(io)).verdict.Took?
    ensures Step(c, s, CompactJournal(io)).state == s.(journal := Journal(Snapshot(s), |Snapshot(s)|, s.journal.headerEpoch))
    ensures s.plans == map[]
  {
    hide Apply, DeclareResource, GrantCapabilities, DeclareClass, DeclarePool, AddBackend, MarkDead, AdvanceEpoch,
      InvalidateEvidence, Refresh, Explain, Reserve, CommitPlan, AbortPlan, Shutdown, Recover, Snapshot;
    assert Unfold(c, s, CompactJournal(io));
  }

  /** After a compaction everything is on stable storage. */
  lemma RestartRecovers(c: Config, s: State, keep: nat, boot: Boot, feed: seq<Moment>, clock: int)
    requires s.journal.synced == |s.journal.records|
    ensures Step(c, s, Restart(keep, boot, feed, clock)) == Recover(c, s.journal, boot, feed, clock)
  {
    hide Apply, DeclareResource, GrantCapabilities, DeclareClass, DeclarePool, AddBackend, MarkDead, AdvanceEpoch,
      InvalidateEvidence, Refresh, Explain, Reserve, CommitPlan, AbortPlan, Shutdown, Recover, Compact;
    assert Unfold(c, s, Restart(keep, boot, feed, clock));
  }

  lemma SameIndex(c: Config, s: State, next: State)
    requires Names.Indexed(c, s) && Names.Indexed(c, next) && Names.SameKeys(s.queues, next.queues)
    ensures next.names == s.names && next.ids.queue == s.ids.queue
  {
    hide Names.SameKeys, Names.WithinCapacity, Names.Faithful, IsGreatest;
    FaithfulSame(s.names, s.queues, next.queues);
    Names.FaithfulUnique(s.names, next.names, next.queues);
    SameIds(s.queues, next.queues);
    GreatestUnique(s.ids.queue - 1, s.queues.Keys);
    GreatestUnique(next.ids.queue - 1, next.queues.Keys);
  }

  lemma SameIds(queues: map<Id, Queue>, next: map<Id, Queue>)
    requires Names.SameKeys(queues, next)
    ensures next.Keys == queues.Keys
  {
  }

  lemma FaithfulSame(names: map<NameKey, Id>, queues: map<Id, Queue>, next: map<Id, Queue>)
    requires Names.Faithful(names, queues) && Names.SameKeys(queues, next)
    ensures Names.Faithful(names, next)
  {
    hide KeyOf;
  }
}
