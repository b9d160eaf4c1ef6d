/** Every event other than a restart keeps to what Steps.Delta allows. */
module Deltas {
  import opened Status
  import opened Entities
  import opened Mutations
  import opened Work
  import opened Machine
  import opened Evolution
  import opened Recovery
  import opened Run
  import opened Steps
  import Provenances
  import Memos
  import Extremes

  lemma SameQueues(c: Config, s: State, e: Event, reply: Reply)
    requires RequestOf(s, e).None? && reply.state.queues == s.queues && s.ids.queue <= reply.state.ids.queue
    ensures QueueSteps(c, s, e, reply)
  {
    hide Installed, Handled, Unbound, NextClass, Superseded, Discredited, Refreshed;
  }

  lemma SameResources(s: State, e: Event, next: State)
    requires next.resources == s.resources && next.epoch == s.epoch
    requires s.ids.resource <= next.ids.resource && s.ids.backend <= next.ids.backend
    ensures ResourceSteps(s, e, next)
  {
    hide Bury;
  }

  /** At most one record was appended, and a flushed one if that is what it took. */
  lemma PersistAppends(c: Config, j: Journal, rec: Record, io: Io)
    ensures var w := Persist(c, j, rec, io);
      && Appends(j, w.journal)
      && (w.journal.records == j.records || w.journal.records == j.records + [rec])
      && (c.hasJournal && w.code.Ok? ==> w.journal.records == j.records + [rec] && w.journal.synced == |w.journal.records|)
  {
  }

  lemma AppendedOne(c: Config, s: State, e: Event, next: State, rec: Record)
    requires !e.CompactJournal? && next.epoch == s.epoch
    requires Appends(s.journal, next.journal) && RecordStep(s, e, rec)
    requires next.journal.records == s.journal.records || next.journal.records == s.journal.records + [rec]
    ensures JournalStep(c, s, e, next)
  {
    hide RecordStep, Snapshot;
  }

  /** A call that at most reads the clock and writes one record. */
  lemma QuietDelta(c: Config, s: State, e: Event, reply: Reply, rec: Record)
    requires RequestOf(s, e).None? && !e.CompactJournal?
    requires reply.state.queues == s.queues && reply.state.resources == s.resources && CoreStep(s, e, reply.state)
    requires reply.state.epoch == s.epoch
    requires s.ids.resource <= reply.state.ids.resource && s.ids.backend <= reply.state.ids.backend && s.ids.queue <= reply.state.ids.queue
    requires Appends(s.journal, reply.state.journal) && RecordStep(s, e, rec)
    requires reply.state.journal.records == s.journal.records || reply.state.journal.records == s.journal.records + [rec]
    ensures Delta(c, s, e, reply)
  {
    hide QueueSteps, ResourceSteps, CoreStep, JournalStep, RequestOf, RecordStep;
    SameQueues(c, s, e, reply);
    SameResources(s, e, reply.state);
    AppendedOne(c, s, e, reply.state, rec);
  }

  /** The same, for a call that leaves queues, resources, names and counters be. */
  lemma SideDelta(c: Config, s: State, e: Event, reply: Reply, rec: Record)
    requires RequestOf(s, e).None? && !e.CompactJournal? && s.watermark <= reply.state.watermark
    requires reply.state == s.(healthy := reply.state.healthy, shuttingDown := reply.state.shuttingDown, plans := reply.state.plans,
      publishers := reply.state.publishers, watermark := reply.state.watermark, journal := reply.state.journal)
    requires Appends(s.journal, reply.state.journal) && RecordStep(s, e, rec)
    requires reply.state.journal.records == s.journal.records || reply.state.journal.records == s.journal.records + [rec]
    ensures Delta(c, s, e, reply)
  {
    hide Delta, RequestOf, RecordStep;
    QuietDelta(c, s, e, reply, rec);
  }

  lemma ReserveDelta(c: Config, s: State, e: Event)
    requires e.PlanApply?
    ensures Delta(c, s, e, Reserve(c, s, e.queue, e.expected, e.principal, e.sender, e.clock, e.io))
  {
    hide CheckReservation, Persist, Delta, Machine.NewPlan, Provenances.Observe, StillHealthy;
    var reply := Reserve(c, s, e.queue, e.expected, e.principal, e.sender, e.clock, e.io);
    if CheckReservation(c, s, e.queue, e.expected, e.principal, e.sender).Ok? {
      ReservableQueue(c, s, e.queue, e.expected, e.principal, e.sender);
      var plan := NewPlan(c, s, e.queue, e.principal, e.sender, Later(s.watermark, e.clock));
      var rec := BeginAttempt(AckRequest(plan, NOT_APPLIED, plan.epoch, e.sender));
      PersistAppends(c, s.journal, rec, e.io);
      SideDelta(c, s, e, reply, rec);
    } else {
      SideDelta(c, s, e, reply, EpochState(s.boot, 0, 0));
    }
  }

  lemma ReservableQueue(c: Config, s: State, queue: Id, expected: nat, principal: Id, sender: Provenance)
    requires CheckReservation(c, s, queue, expected, principal, sender).Ok?
    ensures queue in s.queues
  {
  }

  lemma AbortDelta(c: Config, s: State, e: Event)
    requires e.AbortApply?
    ensures Delta(c, s, e, AbortPlan(c, s, e.plan, e.clock, e.io))
  {
    hide Persist, Delta;
    var rec := CommitMutation(AbortMarker(e.plan));
    PersistAppends(c.(durable := false), s.journal, rec, e.io);
    SideDelta(c, s, e, AbortPlan(c, s, e.plan, e.clock, e.io), rec);
  }

  lemma StopDelta(c: Config, s: State, e: Event)
    requires e.Stop?
    ensures Delta(c, s, e, Shutdown(c, s, e.clock, e.io))
  {
    hide Delta;
    SideDelta(c, s, e, Shutdown(c, s, e.clock, e.io), EpochState(s.boot, 0, 0));
  }

  lemma ExplainDelta(c: Config, s: State, e: Event)
    requires e.ExplainOne?
    ensures Delta(c, s, e, Explain(s, e.queue, e.clock))
  {
    hide Delta;
    SideDelta(c, s, e, Explain(s, e.queue, e.clock), EpochState(s.boot, 0, 0));
  }

  lemma CompactDelta(c: Config, s: State, e: Event)
    requires e.CompactJournal?
    ensures Delta(c, s, e, Compact(c, s, e.io))
  {
    hide Snapshot, QueueSteps, ResourceSteps;
    SameQueues(c, s, e, Compact(c, s, e.io));
    SameResources(s, e, Compact(c, s, e.io).state);
  }

  lemma RefreshDelta(c: Config, s: State, e: Event)
    requires e.RefreshAll?
    ensures Delta(c, s, e, Refresh(c, s, e.clock))
  {
    hide ResourceSteps, JournalStep, Refreshed, Unbound, NextClass, Superseded, Discredited;
    var reply := Refresh(c, s, e.clock);
    SameResources(s, e, reply.state);
    AppendedOne(c, s, e, reply.state, EpochState(s.boot, 0, 0));
  }

  lemma DiscreditDelta(c: Config, s: State, e: Event)
    requires e.Discredit?
    ensures Delta(c, s, e, InvalidateEvidence(s, e.queue, e.principal, e.epoch, e.clock))
  {
    hide ResourceSteps, JournalStep, Refreshed, Unbound, NextClass, Superseded, Discredited, CheckInvalidation;
    var reply := InvalidateEvidence(s, e.queue, e.principal, e.epoch, e.clock);
    if CheckInvalidation(s, e.queue, e.principal, e.epoch).Ok? {
      InvalidatedQueue(s, e.queue, e.principal, e.epoch);
    }
    SameResources(s, e, reply.state);
    AppendedOne(c, s, e, reply.state, EpochState(s.boot, 0, 0));
  }

  lemma InvalidatedQueue(s: State, queue: Id, principal: Id, epoch: nat)
    requires CheckInvalidation(s, queue, principal, epoch).Ok?
    ensures queue in s.queues
  {
  }

  lemma EpochDelta(c: Config, s: State, e: Event)
    requires e.NewEpoch?
    ensures Delta(c, s, e, AdvanceEpoch(c, s, e.principal, e.sender, e.clock, e.io))
  {
    hide Persist, Delta, CheckAdvance, Superseded, StillHealthy;
    var rec := EpochState(s.boot, s.epoch + 1, s.incarnation);
    var reply := AdvanceEpoch(c, s, e.principal, e.sender, e.clock, e.io);
    PersistAppends(c, s.journal, rec, e.io);
    if reply.verdict.Rejected? {
      SideDelta(c, s, e, reply, rec);
    } else {
      AdvancedDelta(c, s, e, Persist(c, s.journal, rec, e.io).journal, Later(s.watermark, e.clock), reply);
    }
  }

  lemma AdvancedDelta(c: Config, s: State, e: Event, j: Journal, now: int, reply: Reply)
    requires e.NewEpoch? && s.watermark <= now && Appends(s.journal, j)
    requires reply == Reply(
      s.(journal := j, epoch := s.epoch + 1,
         resources := map i | i in s.resources :: InEpoch(s.resources[i], s.epoch + 1),
         queues := map i | i in s.queues :: Superseded(s.queues[i]), watermark := now), Took)
    requires j.records == s.journal.records || j.records == s.journal.records + [EpochState(s.boot, s.epoch + 1, s.incarnation)]
    requires c.hasJournal ==> j.records == s.journal.records + [EpochState(s.boot, s.epoch + 1, s.incarnation)] && j.synced == |j.records|
    ensures Delta(c, s, e, reply)
  {
    hide Superseded, Unbound, NextClass, Discredited, Refreshed, Bury, Snapshot;
  }

  lemma DeltaOf(c: Config, s: State, e: Event, reply: Reply, rec: Record)
    requires !e.CompactJournal? && reply.state.epoch == s.epoch
    requires QueueSteps(c, s, e, reply) && ResourceSteps(s, e, reply.state) && CoreStep(s, e, reply.state)
    requires Appends(s.journal, reply.state.journal) && RecordStep(s, e, rec)
    requires reply.state.journal.records == s.journal.records || reply.state.journal.records == s.journal.records + [rec]
    ensures Delta(c, s, e, reply)
  {
    hide QueueSteps, ResourceSteps, CoreStep, JournalStep, RecordStep;
    AppendedOne(c, s, e, reply.state, rec);
  }

  lemma AddedResource(s: State, e: Event, next: State, made: Resource)
    requires e.NewResource? && Counted(s) && next.epoch == s.epoch
    requires next.resources == s.resources[s.ids.resource := made] && next.ids == s.ids.(resource := s.ids.resource + 1)
    requires made.id == s.ids.resource && made.epoch == s.epoch && made.authority.epoch == s.epoch && made.backends == [] && made.queueCount == 0
    ensures ResourceSteps(s, e, next)
  {
    hide Bury;
  }

  lemma AddedResourceDelta(c: Config, s: State, e: Event, w: Written, made: Resource, reply: Reply)
    requires e.NewResource? && Counted(s) && w == Persist(c, s.journal, ResourceState(made), e.io)
    requires made.id == s.ids.resource && made.epoch == s.epoch && made.authority.epoch == s.epoch && made.backends == [] && made.queueCount == 0
    requires reply.state == s.(watermark := Later(s.watermark, e.clock), journal := w.journal,
      ids := s.ids.(resource := s.ids.resource + 1), resources := s.resources[s.ids.resource := made])
    ensures Delta(c, s, e, reply)
  {
    hide Persist, QueueSteps, ResourceSteps, Delta, Counted;
    PersistAppends(c, s.journal, ResourceState(made), e.io);
    AddedResource(s, e, reply.state, made);
    SameQueues(c, s, e, reply);
    DeltaOf(c, s, e, reply, ResourceState(made));
  }

  lemma NewResourceDelta(c: Config, s: State, e: Event)
    requires e.NewResource? && Counted(s)
    ensures Delta(c, s, e, DeclareResource(c, s, e.name, e.owner, e.sender, e.clock, e.io))
  {
    hide Persist, Delta, CheckNewResource, Counted, StillHealthy;
    var reply := DeclareResource(c, s, e.name, e.owner, e.sender, e.clock, e.io);
    var made := Machine.NewResource(s.ids.resource, e.name, e.owner, s.epoch, e.sender, Later(s.watermark, e.clock));
    if reply.verdict.Took? {
      AddedResourceDelta(c, s, e, Persist(c, s.journal, ResourceState(made), e.io), made, reply);
    } else {
      PersistAppends(c, s.journal, ResourceState(made), e.io);
      SideDelta(c, s, e, reply, ResourceState(made));
    }
  }

  lemma GrownResource(s: State, e: Event, next: State, updated: Resource, b: Backend)
    requires e.NewBackend? && e.resource in s.resources && next.epoch == s.epoch
    requires next.resources == s.resources[e.resource := updated] && next.ids == s.ids.(backend := s.ids.backend + 1)
    requires updated == s.resources[e.resource].(backends := s.resources[e.resource].backends + [b])
    requires b.id == s.ids.backend && b.alive
    ensures ResourceSteps(s, e, next)
  {
    hide Bury;
  }

  /** The backend entry and the resource record a registration makes. */
  lemma AddedBackendDelta(c: Config, s: State, e: Event, w: Written, updated: Resource, b: Backend, reply: Reply)
    requires e.NewBackend? && Counted(s) && e.resource in s.resources
    requires updated == s.resources[e.resource].(backends := s.resources[e.resource].backends + [b])
    requires b.id == s.ids.backend && b.alive
    requires w == Persist(c, s.journal, ResourceState(updated), e.io)
    requires reply.state == s.(watermark := Later(s.watermark, e.clock), ids := s.ids.(backend := s.ids.backend + 1),
      resources := s.resources[e.resource := updated], journal := w.journal, healthy := reply.state.healthy)
    ensures Delta(c, s, e, reply)
  {
    hide Persist, QueueSteps, ResourceSteps, Delta, Counted, RecordStep;
    PersistAppends(c, s.journal, ResourceState(updated), e.io);
    SameQueues(c, s, e, reply);
    GrownResource(s, e, reply.state, updated, b);
    GrownRecord(s, e, updated, b);
    DeltaOf(c, s, e, reply, ResourceState(updated));
  }

  lemma GrownRecord(s: State, e: Event, updated: Resource, b: Backend)
    requires e.NewBackend? && Counted(s) && e.resource in s.resources
    requires updated == s.resources[e.resource].(backends := s.resources[e.resource].backends + [b])
    requires b.id == s.ids.backend && b.alive
    ensures RecordStep(s, e, ResourceState(updated))
  {
    hide Bury, Numbered;
  }

  /** A call that changed nothing but the clock's watermark. */
  lemma UnchangedDelta(c: Config, s: State, e: Event, reply: Reply)
    requires RequestOf(s, e).None? && !e.CompactJournal?
    requires s.watermark <= reply.state.watermark && reply.state == s.(watermark := reply.state.watermark)
    ensures Delta(c, s, e, reply)
  {
    hide Delta, RequestOf;
    QuietDelta(c, s, e, reply, EpochState(s.boot, 0, 0));
  }

  lemma AddBackendDelta(c: Config, s: State, e: Event)
    requires e.NewBackend? && Counted(s)
    ensures Delta(c, s, e, AddBackend(c, s, e.resource, e.incarnation, e.principal, e.epoch, e.sender, e.clock, e.io))
  {
    hide Persist, Delta, CheckBackend, StillHealthy, Counted;
    var reply := AddBackend(c, s, e.resource, e.incarnation, e.principal, e.epoch, e.sender, e.clock, e.io);
    if !CheckBackend(s, e.resource, e.incarnation, e.principal, e.epoch, e.sender).Ok? {
      UnchangedDelta(c, s, e, reply);
    } else {
      TopologyResource(s, e.resource, e.incarnation, e.principal, e.epoch, e.sender);
      if |s.resources[e.resource].backends| >= c.limits.maxResources {
        UnchangedDelta(c, s, e, reply);
      } else {
        var b := Backend(s.ids.backend, e.resource, e.incarnation, s.epoch, Later(s.watermark, e.clock), true);
        var updated := WithBackend(s.resources[e.resource], b);
        AddedBackendDelta(c, s, e, Persist(c, s.journal, ResourceState(updated), e.io), updated, b, reply);
      }
    }
  }

  lemma TopologyResource(s: State, resource: Id, incarnation: nat, principal: Id, epoch: nat, sender: Provenance)
    requires CheckBackend(s, resource, incarnation, principal, epoch, sender).Ok?
    ensures resource in s.resources
  {
  }

  /** A new version of a resource that this event may publish. */
  predicate EditOk(s: State, e: Event, id: Id, edit: Edit) {
    && s.ids.resource == edit.ids.resource && s.ids.backend == edit.ids.backend && s.ids.queue == edit.ids.queue
    && s.ids.fence == edit.ids.fence
    && (edit.Edit? ==>
      && id in s.resources
      && var r, r' := s.resources[id], edit.resource;
        && r'.id == r.id && r'.name == r.name && r'.epoch == r.epoch && r'.authority.epoch == r.authority.epoch
        && (r'.backends == r.backends || (e.BackendDied? && r'.backends == Bury(r.backends, e.backend)))
        && (e.NewClass? || r'.classes == r.classes)
        && (e.NewPool? || r'.pools == r.pools)
        && (e.GrantTo? || r'.authority.grants == r.authority.grants)
        && r'.queueCount == r.queueCount)
  }

  lemma EditedResource(s: State, e: Event, next: State, id: Id, edit: Edit)
    requires EditOk(s, e, id, edit) && edit.Edit? && next.epoch == s.epoch
    requires next.resources == s.resources[id := edit.resource] && next.ids == edit.ids
    ensures ResourceSteps(s, e, next)
  {
    hide Bury;
  }

  lemma EditRecord(s: State, e: Event, id: Id, edit: Edit)
    requires Counted(s) && EditOk(s, e, id, edit) && edit.Edit?
    ensures RecordStep(s, e, ResourceState(edit.resource))
  {
    hide Bury, Numbered;
  }

  lemma MarkedQueues(c: Config, s: State, e: Event, reply: Reply)
    requires RequestOf(s, e).None? && reply.state.queues.Keys == s.queues.Keys && s.ids.queue <= reply.state.ids.queue
    requires forall i :: i in s.queues ==> Marked(c, s, e, reply.state, i)
    ensures QueueSteps(c, s, e, reply)
  {
    hide Marked, Installed, Handled;
  }

  /** The queues a published edit leaves, whatever else the state holds. */
  ghost predicate MarksOnly(c: Config, s: State, e: Event, queues: map<Id, Queue>) {
    && queues.Keys == s.queues.Keys
    && forall next: State, i :: next.queues == queues && i in s.queues ==> Marked(c, s, e, next, i)
  }

  lemma PublishedDelta(c: Config, s: State, e: Event, id: Id, edit: Edit, reply: Reply)
    requires Counted(s) && RequestOf(s, e).None? && !e.CompactJournal? && EditOk(s, e, id, edit) && edit.Edit?
    requires MarksOnly(c, s, e, reply.state.queues)
    requires Appends(s.journal, reply.state.journal)
    requires reply.state.journal.records == s.journal.records || reply.state.journal.records == s.journal.records + [ResourceState(edit.resource)]
    requires s.watermark <= reply.state.watermark
    requires reply.state == s.(ids := edit.ids, journal := reply.state.journal, queues := reply.state.queues,
      resources := s.resources[id := edit.resource], watermark := reply.state.watermark)
    ensures Delta(c, s, e, reply)
  {
    hide Delta, QueueSteps, ResourceSteps, RequestOf, Marked, EditOk, Counted, RecordStep;
    EditKeepsIds(s, e, id, edit);
    EditRecord(s, e, id, edit);
    EditedResource(s, e, reply.state, id, edit);
    MarkedQueues(c, s, e, reply);
    DeltaOf(c, s, e, reply, ResourceState(edit.resource));
  }

  lemma UnpublishedDelta(c: Config, s: State, e: Event, ids: Ids, rec: Record, reply: Reply)
    requires RequestOf(s, e).None? && !e.CompactJournal? && RecordStep(s, e, rec)
    requires s.ids.resource == ids.resource && s.ids.backend == ids.backend && s.ids.queue == ids.queue
    requires Appends(s.journal, reply.state.journal)
    requires reply.state.journal.records == s.journal.records || reply.state.journal.records == s.journal.records + [rec]
    requires reply.state == s.(ids := ids, journal := reply.state.journal, healthy := reply.state.healthy)
    ensures Delta(c, s, e, reply)
  {
    hide Delta, RequestOf, RecordStep;
    QuietDelta(c, s, e, reply, rec);
  }

  lemma PublishDelta(c: Config, d: Config, s: State, e: Event, id: Id, edit: Edit, queues: map<Id, Queue>, clock: int, io: Io)
    requires Counted(s) && RequestOf(s, e).None? && !e.CompactJournal? && EditOk(s, e, id, edit)
    requires MarksOnly(c, s, e, queues)
    ensures Delta(c, s, e, Publish(d, s, id, edit, queues, clock, io))
  {
    hide Persist, Delta, RequestOf, MarksOnly, StillHealthy, EditOk, Counted;
    var reply := Publish(d, s, id, edit, queues, clock, io);
    EditKeepsIds(s, e, id, edit);
    if edit.NoEdit? {
      UnpublishedDelta(c, s, e, edit.ids, EpochState(s.boot, 0, 0), reply);
    } else {
      PersistAppends(d, s.journal, ResourceState(edit.resource), io);
      if reply.verdict.Took? {
        PublishedDelta(c, s, e, id, edit, reply);
      } else {
        EditRecord(s, e, id, edit);
        UnpublishedDelta(c, s, e, edit.ids, ResourceState(edit.resource), reply);
      }
    }
  }

  lemma EditKeepsIds(s: State, e: Event, id: Id, edit: Edit)
    requires EditOk(s, e, id, edit)
    ensures s.ids.resource == edit.ids.resource && s.ids.backend == edit.ids.backend && s.ids.queue == edit.ids.queue
  {
  }

  lemma SameQueuesMarksOnly(c: Config, s: State, e: Event)
    ensures MarksOnly(c, s, e, s.queues)
  {
    hide Unbound, NextClass, Superseded, Discredited, Refreshed;
  }

  lemma GrantDelta(c: Config, s: State, e: Event)
    requires e.GrantTo? && Counted(s)
    ensures Delta(c, s, e, GrantCapabilities(c, s, e.resource, e.grant, e.principal, e.epoch, e.sender, e.clock, e.io))
  {
    hide Publish, Delta, Counted, MarksOnly, EditOk, GrantEdit;
    var edit := GrantEdit(c, s, e.resource, e.grant, e.principal, e.epoch, e.sender);
    SameQueuesMarksOnly(c, s, e);
    assert EditOk(s, e, e.resource, edit) by {
      GrantEditOk(c, s, e);
    }
    PublishDelta(c, c, s, e, e.resource, edit, s.queues, e.clock, e.io);
  }

  lemma GrantEditOk(c: Config, s: State, e: Event)
    requires e.GrantTo?
    ensures EditOk(s, e, e.resource, GrantEdit(c, s, e.resource, e.grant, e.principal, e.epoch, e.sender))
  {
    hide HasGrant, SetGrant, Bury;
  }

  lemma PoolDelta(c: Config, s: State, e: Event)
    requires e.NewPool? && Counted(s)
    ensures Delta(c, s, e, DeclarePool(c, s, e.resource, e.name, e.capacity, e.principal, e.epoch, e.sender, e.clock, e.io))
  {
    hide Publish, Delta, Counted, MarksOnly, EditOk, PoolEdit;
    var edit := PoolEdit(c, s, e.resource, e.name, e.capacity, e.principal, e.epoch, e.sender);
    SameQueuesMarksOnly(c, s, e);
    assert EditOk(s, e, e.resource, edit) by {
      PoolEditOk(c, s, e);
    }
    PublishDelta(c, c, s, e, e.resource, edit, s.queues, e.clock, e.io);
  }

  lemma PoolEditOk(c: Config, s: State, e: Event)
    requires e.NewPool?
    ensures EditOk(s, e, e.resource, PoolEdit(c, s, e.resource, e.name, e.capacity, e.principal, e.epoch, e.sender))
  {
    hide SetPool, Bury;
  }

  lemma ClassEditOk(c: Config, s: State, e: Event)
    requires e.NewClass?
    ensures EditOk(s, e, e.resource, ClassEdit(c, s, e.resource, e.name, e.priority, e.qos, e.principal, e.epoch, e.sender))
  {
    hide SetClass, Bury, NextClass;
  }

  lemma UnboundMarksOnly(c: Config, s: State, e: Event, queues: map<Id, Queue>)
    requires e.NewClass? && e.resource in s.resources
    requires queues == map i | i in s.queues :: Unbound(s.queues[i], e.resource, NextClass(s, e.resource, e.name, e.priority, e.qos, e.sender))
    ensures MarksOnly(c, s, e, queues)
  {
    hide Unbound, NextClass, Superseded, Discredited, Refreshed;
  }

  lemma ClassDelta(c: Config, s: State, e: Event)
    requires e.NewClass? && Counted(s)
    ensures Delta(c, s, e,
      DeclareClass(c, s, e.resource, e.name, e.priority, e.qos, e.principal, e.epoch, e.sender, e.clock, e.io))
  {
    hide Publish, Delta, Counted, MarksOnly, EditOk, ClassEdit, NextClass, Unbound;
    var edit := ClassEdit(c, s, e.resource, e.name, e.priority, e.qos, e.principal, e.epoch, e.sender);
    assert EditOk(s, e, e.resource, edit) by {
      ClassEditOk(c, s, e);
    }
    if edit.Edit? {
      EditResource(s, e, e.resource, edit);
      var queues := map i | i in s.queues :: Unbound(s.queues[i], e.resource, NextClass(s, e.resource, e.name, e.priority, e.qos, e.sender));
      UnboundMarksOnly(c, s, e, queues);
      PublishDelta(c, c, s, e, e.resource, edit, queues, e.clock, e.io);
    } else {
      SameQueuesMarksOnly(c, s, e);
      PublishDelta(c, c, s, e, e.resource, edit, s.queues, e.clock, e.io);
    }
  }

  lemma EditResource(s: State, e: Event, id: Id, edit: Edit)
    requires EditOk(s, e, id, edit) && edit.Edit?
    ensures id in s.resources
  {
  }

  lemma DeathEditOk(s: State, e: Event, id: Id)
    requires e.BackendDied? && id in s.resources
    ensures EditOk(s, e, id, DeathEdit(s, id, e.backend, e.incarnation, e.principal, e.epoch))
  {
    hide Bury, FindBackend, AllowedOn;
  }

  lemma DeathDelta(c: Config, s: State, e: Event)
    requires e.BackendDied? && Counted(s)
    ensures Delta(c, s, e, MarkDead(c, s, e.backend, e.incarnation, e.principal, e.epoch, e.clock, e.io))
  {
    hide Publish, Delta, Counted, MarksOnly, EditOk, DeathEdit;
    if s.shuttingDown || Registrars(s.resources, e.backend) == {} {
      UnchangedDelta(c, s, e, MarkDead(c, s, e.backend, e.incarnation, e.principal, e.epoch, e.clock, e.io));
    } else {
      var id := Extremes.Least(Registrars(s.resources, e.backend));
      DeathEditOk(s, e, id);
      SameQueuesMarksOnly(c, s, e);
      PublishDelta(c, c.(durable := false), s, e, id, DeathEdit(s, id, e.backend, e.incarnation, e.principal, e.epoch), s.queues, e.clock, e.io);
    }
  }

  // ---- mutations ------------------------------------------------------------

  lemma UncountedResources(s: State, e: Event, next: State)
    requires e.Mutate?
    requires next.resources.Keys == s.resources.Keys && next.epoch == s.epoch
    requires forall i :: i in s.resources ==> SameButCount(s.resources[i], next.resources[i])
    requires next.ids.resource == s.ids.resource && next.ids.backend == s.ids.backend
    ensures ResourceSteps(s, e, next)
  {
    hide Bury;
  }

  lemma JournalledStep(c: Config, s: State, e: Event, next: State, r: Request, io: Io, took: bool)
    requires !e.CompactJournal? && next.epoch == s.epoch && Journalled(c, s.journal, next.journal, r, io, took)
    ensures JournalStep(c, s, e, next)
  {
    hide Snapshot, Encodable;
    var added := Added(s.journal, next.journal);
    forall k | |s.journal.records| <= k < |next.journal.records| ensures RecordStep(s, e, next.journal.records[k]) {
      assert next.journal.records[k] == added[k - |s.journal.records|];
    }
  }

  lemma MutateQueues(c: Config, s: State, e: Event, reply: Reply)
    requires e.Mutate? && QueuesAfter(c, s, e.request, false, reply)
    ensures QueueSteps(c, s, e, reply)
  {
    hide Handled, Installed;
  }

  lemma MutateDelta(c: Config, s: State, e: Event)
    requires e.Mutate? && Counted(s)
    ensures Delta(c, s, e, Apply(c, s, e.request, e.clock, e.io, false))
  {
    hide Apply, QueuesAfter, Journalled, Heard, SameButCount, QueueSteps, JournalStep, ResourceSteps;
    var reply := Apply(c, s, e.request, e.clock, e.io, false);
    ApplyQueues(c, s, e.request, e.clock, e.io, false);
    ApplyRest(c, s, e.request, e.clock, e.io, false);
    MutateQueues(c, s, e, reply);
    UncountedResources(s, e, reply.state);
    JournalledStep(c, s, e, reply.state, e.request, e.io, reply.verdict.Took?);
  }

  // ---- committing a plan ----------------------------------------------------

  /** The work of a request does not read the journal. */
  lemma WorkedElsewhere(c: Config, s: State, t: State, now: int, q: Queue, r: Request, next: Queue)
    requires t == s.(journal := t.journal) && Worked(c, t, now, q, r, false, next)
    ensures Worked(c, s, now, q, r, false, next)
  {
    hide Perform, Remembered, Allowed, CheckCurrent, Memos.Find, Provenances.Classify, PayloadMatches, Durable;
  }

  lemma CommittedTurn(c: Config, s: State, r: Request, now: int, io: Io, t: Turn, j: Journal, plans: map<Attempt, Plan>)
    requires r.queue in s.queues && r.kind.AcknowledgeBackend?
    requires Evolved(c, s.(journal := j), now, r, false, t)
    ensures QueuesAfter(c, s, r, false, Reply(AfterTurn(s, r, now, t).state.(plans := plans), t.verdict))
  {
    hide Worked, Installed, Kept, Score;
    var reply := Reply(AfterTurn(s, r, now, t).state.(plans := plans), t.verdict);
    if t.verdict.Took? {
      WorkedElsewhere(c, s, s.(journal := j), now, s.queues[r.queue], r, t.queue);
    }
    forall i | i in s.queues ensures Handled(c, s, r, false, reply, i) {
      KeptSelf(c, r, s.queues[i]);
    }
  }

  lemma CommitQueues(c: Config, s: State, e: Event, reply: Reply)
    requires e.CommitApply? && QueuesAfter(c, s, AckRequest(e.plan, e.applied, s.epoch, e.sender), false, reply)
    ensures QueueSteps(c, s, e, reply)
  {
    hide Handled, Installed;
    var r := AckRequest(e.plan, e.applied, s.epoch, e.sender);
    forall i | i in reply.state.queues ensures i in s.queues {
      AckInstallsNothing(c, s, r, reply, i);
    }
  }

  lemma AckInstallsNothing(c: Config, s: State, r: Request, reply: Reply, i: Id)
    requires r.kind.AcknowledgeBackend?
    ensures !Installed(c, s, r, false, reply, i)
  {
    hide CheckDeclaration, Check, Remembered;
  }

  lemma AckJournal(c: Config, s: State, j: Journal, r: Request, io: Io, t: Turn)
    requires r.kind.AcknowledgeBackend? && Appends(s.journal, j)
    requires TurnRest(c, s.(journal := j), r, io, false, t)
    ensures t.journal.records == j.records && Appends(s.journal, t.journal)
  {
    hide Heard, Encodable;
    assert t.journal.records == t.journal.records[..|j.records|] + Added(j, t.journal);
  }

  lemma CommittedDelta(c: Config, s: State, e: Event, r: Request, j: Journal, t: Turn, reply: Reply)
    requires e.CommitApply? && e.plan.queue in s.queues && r == AckRequest(e.plan, e.applied, s.epoch, e.sender)
    requires Appends(s.journal, j) && (j.records == s.journal.records || j.records == s.journal.records + [CommitMutation(r)])
    requires Evolved(c, s.(journal := j), Later(s.watermark, e.clock), r, false, t)
    requires TurnRest(c, s.(journal := j), r, e.io, false, t)
    requires reply == Reply(AfterTurn(s, r, Later(s.watermark, e.clock), t).state.(plans := reply.state.plans), t.verdict)
    ensures Delta(c, s, e, reply)
  {
    hide QueuesAfter, QueueSteps, ResourceSteps, Delta, Evolved, TurnRest, Score;
    CommittedTurn(c, s, r, Later(s.watermark, e.clock), e.io, t, j, reply.state.plans);
    CommitQueues(c, s, e, reply);
    AckJournal(c, s, j, r, e.io, t);
    SameResources(s, e, reply.state);
    DeltaOf(c, s, e, reply, CommitMutation(r));
  }

  lemma CommitDelta(c: Config, s: State, e: Event)
    requires e.CommitApply?
    ensures Delta(c, s, e, CommitPlan(c, s, e.plan, e.applied, e.sender, e.clock, e.io))
  {
    hide Persist, Delta, ApplyExisting, AfterTurn, CheckPlan, StillHealthy, Evolved, TurnRest;
    var r := AckRequest(e.plan, e.applied, s.epoch, e.sender);
    var w := Persist(c, s.journal, CommitMutation(r), e.io);
    var reply := CommitPlan(c, s, e.plan, e.applied, e.sender, e.clock, e.io);
    PersistAppends(c, s.journal, CommitMutation(r), e.io);
    if !CheckPlan(s, e.plan, e.sender).Ok? || !w.code.Ok? {
      RefusedPlanDelta(c, s, e, reply);
    } else {
      CheckedPlan(s, e.plan, e.sender);
      var now := Later(s.watermark, e.clock);
      var t := ApplyExisting(c, s.(journal := w.journal), now, r, e.io, false);
      ExistingEvolves(c, s.(journal := w.journal), now, r, e.io, false);
      ExistingRest(c, s.(journal := w.journal), now, r, e.io, false);
      CommittedDelta(c, s, e, r, w.journal, t, reply);
    }
  }

  lemma RefusedPlanDelta(c: Config, s: State, e: Event, reply: Reply)
    requires e.CommitApply? && reply.verdict.Rejected?
    requires reply.state == s.(journal := reply.state.journal, healthy := reply.state.healthy)
    requires Appends(s.journal, reply.state.journal)
    requires var rec := CommitMutation(AckRequest(e.plan, e.applied, s.epoch, e.sender));
      reply.state.journal.records == s.journal.records || reply.state.journal.records == s.journal.records + [rec]
    ensures Delta(c, s, e, reply)
  {
    hide QueuesAfter, QueueSteps, ResourceSteps, Delta;
    RefusedPlanQueues(c, s, e, reply);
    CommitQueues(c, s, e, reply);
    SameResources(s, e, reply.state);
    DeltaOf(c, s, e, reply, CommitMutation(AckRequest(e.plan, e.applied, s.epoch, e.sender)));
  }

  lemma RefusedPlanQueues(c: Config, s: State, e: Event, reply: Reply)
    requires e.CommitApply? && reply.verdict.Rejected? && reply.state.queues == s.queues && reply.state.ids == s.ids
    ensures QueuesAfter(c, s, AckRequest(e.plan, e.applied, s.epoch, e.sender), false, reply)
  {
    hide Worked, Installed, Kept;
    var r := AckRequest(e.plan, e.applied, s.epoch, e.sender);
    forall i | i in s.queues ensures Handled(c, s, r, false, reply, i) {
      KeptSelf(c, r, s.queues[i]);
    }
  }

  lemma CheckedPlan(s: State, plan: Plan, sender: Provenance)
    requires CheckPlan(s, plan, sender).Ok?
    ensures plan.queue in s.queues
  {
  }

  // ---- all events -----------------------------------------------------------

  /** One step of a running process changes no more than Delta says. */
  lemma StepDelta(c: Config, s: State, e: Event)
    requires Counted(s) && !e.Restart?
    ensures Delta(c, s, e, Step(c, s, e))
  {
    hide Delta, Counted, Apply, DeclareResource, GrantCapabilities, DeclareClass, DeclarePool, AddBackend, MarkDead, AdvanceEpoch,
      InvalidateEvidence, Refresh, Explain, Reserve, CommitPlan, AbortPlan, Compact, Shutdown, Recover;
    assert Unfold(c, s, e);
    match e
    case Mutate(_, _, _) => MutateDelta(c, s, e);
    case NewResource(_, _, _, _, _) => NewResourceDelta(c, s, e);
    case GrantTo(_, _, _, _, _, _, _) => GrantDelta(c, s, e);
    case NewClass(_, _, _, _, _, _, _, _, _) => ClassDelta(c, s, e);
    case NewPool(_, _, _, _, _, _, _, _) => PoolDelta(c, s, e);
    case NewBackend(_, _, _, _, _, _, _) => AddBackendDelta(c, s, e);
    case BackendDied(_, _, _, _, _, _) => DeathDelta(c, s, e);
    case NewEpoch(_, _, _, _) => EpochDelta(c, s, e);
    case Discredit(_, _, _, _) => DiscreditDelta(c, s, e);
    case RefreshAll(_) => RefreshDelta(c, s, e);
    case ExplainOne(_, _) => ExplainDelta(c, s, e);
    case PlanApply(_, _, _, _, _, _) => ReserveDelta(c, s, e);
    case CommitApply(_, _, _, _, _) => CommitDelta(c, s, e);
    case AbortApply(_, _, _) => AbortDelta(c, s, e);
    case CompactJournal(_) => CompactDelta(c, s, e);
    case Stop(_, _) => StopDelta(c, s, e);
  }
}
