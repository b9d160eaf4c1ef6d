/** What a step writes when the journal works. */
module GoodRuns {
  import opened Status
  import opened Entities
  import opened Mutations
  import opened Work
  import opened Machine
  import opened Recovery
  import opened Run
  import opened Steps
  import Deltas
  import Provenances

  /** The journal did what it was asked, and this is no restart; a compaction that
      fails leaves the journal as it was. */
  predicate GoodIo(e: Event) {
    match e
    case Mutate(_, _, io) => io.Good?
    case NewResource(_, _, _, _, io) => io.Good?
    case GrantTo(_, _, _, _, _, _, io) => io.Good?
    case NewClass(_, _, _, _, _, _, _, _, io) => io.Good?
    case NewPool(_, _, _, _, _, _, _, io) => io.Good?
    case NewBackend(_, _, _, _, _, _, io) => io.Good?
    case BackendDied(_, _, _, _, _, io) => io.Good?
    case NewEpoch(_, _, _, io) => io.Good?
    case Discredit(_, _, _, _) => true
    case RefreshAll(_) => true
    case ExplainOne(_, _) => true
    case PlanApply(_, _, _, _, _, io) => io.Good?
    case CommitApply(_, _, _, _, io) => io.Good?
    case AbortApply(_, _, io) => io.Good?
    case CompactJournal(_) => true
    case Stop(_, io) => io.Good?
    case Restart(_, _, _, _) => false
  }

  /** A resource was published as it was journalled. */
  predicate Publishes(s: State, next: State, r: Resource) {
    next.resources == s.resources[r.id := r] && next.journal.records == s.journal.records + [ResourceState(r)]
  }

  predicate Edits(e: Event) {
    e.NewResource? || e.GrantTo? || e.NewClass? || e.NewPool? || e.NewBackend? || e.BackendDied?
  }

  /** A record that replay and restoration pass over. */
  predicate Neutral(rec: Record) {
    rec.BeginAttempt? || rec.EpochState?
  }

  /** The records one step adds, told apart by what recovery does with them. */
  ghost predicate Writes(c: Config, s: State, e: Event, reply: Reply) {
    var j, k := s.journal.records, reply.state.journal.records;
    match e
    case Mutate(r, _, _) =>
      if reply.verdict.Took? && Durable(r.kind) then k == j + [BeginAttempt(r), CommitMutation(r)] else k == j
    case CommitApply(plan, applied, sender, _, _) => k == j || k == j + [CommitMutation(AckRequest(plan, applied, s.epoch, sender))]
    case AbortApply(plan, _, _) => k == j || k == j + [CommitMutation(AbortMarker(plan))]
    case CompactJournal(_) => k == if reply.verdict.Took? then Snapshot(s) else j
    case _ =>
      if Edits(e) then (k == j && reply.state.resources == s.resources) || exists r :: Publishes(s, reply.state, r)
      else k == j || (|k| == |j| + 1 && k[..|j|] == j && Neutral(k[|j|]))
  }

  predicate Flushed(s: State) {
    s.journal.synced == |s.journal.records|
  }

  lemma PersistGood(c: Config, j: Journal, rec: Record)
    requires c.hasJournal
    ensures Persist(c, j, rec, Good) == Written(j.(records := j.records + [rec], synced := |j.records| + 1), Ok)
  {
  }

  lemma MutateWrites(c: Config, s: State, e: Event)
    requires c.hasJournal && e.Mutate? && GoodIo(e) && Flushed(s)
    ensures Writes(c, s, e, Apply(c, s, e.request, e.clock, e.io, false)) && Flushed(Apply(c, s, e.request, e.clock, e.io, false).state)
  {
    hide Apply, Heard, SameButCount, Encodable, Durable;
    var reply := Apply(c, s, e.request, e.clock, e.io, false);
    ApplyRest(c, s, e.request, e.clock, e.io, false);
    var j, k := s.journal.records, reply.state.journal.records;
    assert k == k[..|j|] + Added(s.journal, reply.state.journal);
  }

  lemma PublishWrites(c: Config, s: State, e: Event, id: Id, edit: Edit, queues: map<Id, Queue>, clock: int)
    requires c.hasJournal && Counted(s) && Flushed(s) && Deltas.EditOk(s, e, id, edit)
    ensures var next := Publish(c, s, id, edit, queues, clock, Good).state;
      && ((next.journal.records == s.journal.records && next.resources == s.resources) || exists r :: Publishes(s, next, r))
      && Flushed(next)
  {
    hide Persist, Bury, Numbered, StillHealthy;
    var next := Publish(c, s, id, edit, queues, clock, Good).state;
    if edit.Edit? {
      PersistGood(c, s.journal, ResourceState(edit.resource));
      assert Publishes(s, next, edit.resource);
    }
  }

  lemma EditWrites(c: Config, s: State, e: Event)
    requires c.hasJournal && Counted(s) && Flushed(s) && GoodIo(e) && (e.GrantTo? || e.NewClass? || e.NewPool? || e.BackendDied?)
    ensures Writes(c, s, e, Step(c, s, e)) && Flushed(Step(c, s, e).state)
  {
    hide Apply, DeclareResource, AddBackend, AdvanceEpoch, InvalidateEvidence, Refresh, Explain, Reserve, CommitPlan, AbortPlan, Compact,
      Shutdown, Recover, Publish, GrantEdit, ClassEdit, PoolEdit, DeathEdit, Unbound, NextClass, HasBackend, Deltas.EditOk, Counted, Publishes;
    assert Unfold(c, s, e);
    forall d: Config, id, edit, queues, clock | d.hasJournal && Deltas.EditOk(s, e, id, edit)
      ensures var next := Publish(d, s, id, edit, queues, clock, Good).state;
        && ((next.journal.records == s.journal.records && next.resources == s.resources) || exists r :: Publishes(s, next, r))
        && Flushed(next)
    {
      PublishWrites(d, s, e, id, edit, queues, clock);
    }
    match e
    case GrantTo(_, _, _, _, _, _, _) => Deltas.GrantEditOk(c, s, e);
    case NewPool(_, _, _, _, _, _, _, _) => Deltas.PoolEditOk(c, s, e);
    case NewClass(_, _, _, _, _, _, _, _, _) => Deltas.ClassEditOk(c, s, e);
    case BackendDied(_, _, _, _, _, _) =>
      forall id | id in s.resources ensures Deltas.EditOk(s, e, id, DeathEdit(s, id, e.backend, e.incarnation, e.principal, e.epoch)) {
        Deltas.DeathEditOk(s, e, id);
      }
  }

  lemma NewResourceWrites(c: Config, s: State, e: Event)
    requires c.hasJournal && Flushed(s) && GoodIo(e) && e.NewResource?
    ensures var reply := DeclareResource(c, s, e.name, e.owner, e.sender, e.clock, e.io); Writes(c, s, e, reply) && Flushed(reply.state)
  {
    hide Persist, CheckNewResource, StillHealthy;
    var made := Machine.NewResource(s.ids.resource, e.name, e.owner, s.epoch, e.sender, Later(s.watermark, e.clock));
    PersistGood(c, s.journal, ResourceState(made));
    var reply := DeclareResource(c, s, e.name, e.owner, e.sender, e.clock, e.io);
    if reply.verdict.Took? {
      assert Publishes(s, reply.state, made);
    }
  }

  lemma NewBackendWrites(c: Config, s: State, e: Event)
    requires c.hasJournal && Counted(s) && Flushed(s) && GoodIo(e) && e.NewBackend?
    ensures var reply := AddBackend(c, s, e.resource, e.incarnation, e.principal, e.epoch, e.sender, e.clock, e.io);
      Writes(c, s, e, reply) && Flushed(reply.state)
  {
    hide Persist, CheckBackend, StillHealthy, Numbered;
    var reply := AddBackend(c, s, e.resource, e.incarnation, e.principal, e.epoch, e.sender, e.clock, e.io);
    if CheckBackend(s, e.resource, e.incarnation, e.principal, e.epoch, e.sender).Ok? {
      Deltas.TopologyResource(s, e.resource, e.incarnation, e.principal, e.epoch, e.sender);
      var b := Backend(s.ids.backend, e.resource, e.incarnation, s.epoch, Later(s.watermark, e.clock), true);
      var updated := WithBackend(s.resources[e.resource], b);
      PersistGood(c, s.journal, ResourceState(updated));
      if |s.resources[e.resource].backends| < c.limits.maxResources {
        assert Publishes(s, reply.state, updated);
      }
    }
  }

  lemma AdvanceWrites(c: Config, s: State, e: Event)
    requires c.hasJournal && Flushed(s) && GoodIo(e) && e.NewEpoch?
    ensures var reply := AdvanceEpoch(c, s, e.principal, e.sender, e.clock, e.io); Writes(c, s, e, reply) && Flushed(reply.state)
  {
    hide Persist, CheckAdvance, StillHealthy, Superseded, InEpoch, Publishes;
    PersistGood(c, s.journal, EpochState(s.boot, s.epoch + 1, s.incarnation));
  }

  lemma ReserveWrites(c: Config, s: State, e: Event)
    requires c.hasJournal && Flushed(s) && GoodIo(e) && e.PlanApply?
    ensures var reply := Reserve(c, s, e.queue, e.expected, e.principal, e.sender, e.clock, e.io); Writes(c, s, e, reply) && Flushed(reply.state)
  {
    hide Persist, CheckReservation, StillHealthy, NewPlan, Provenances.Observe, Publishes;
    if CheckReservation(c, s, e.queue, e.expected, e.principal, e.sender).Ok? {
      Deltas.ReservableQueue(c, s, e.queue, e.expected, e.principal, e.sender);
      var plan := NewPlan(c, s, e.queue, e.principal, e.sender, Later(s.watermark, e.clock));
      PersistGood(c, s.journal, BeginAttempt(AckRequest(plan, NOT_APPLIED, plan.epoch, e.sender)));
    }
  }

  lemma CommitWrites(c: Config, s: State, e: Event)
    requires c.hasJournal && Flushed(s) && GoodIo(e) && e.CommitApply?
    ensures var reply := CommitPlan(c, s, e.plan, e.applied, e.sender, e.clock, e.io); Writes(c, s, e, reply) && Flushed(reply.state)
  {
    hide Persist, CheckPlan, StillHealthy, ApplyExisting, Score, Succeeded, Heard, Encodable;
    var r := AckRequest(e.plan, e.applied, s.epoch, e.sender);
    PersistGood(c, s.journal, CommitMutation(r));
    if CheckPlan(s, e.plan, e.sender).Ok? {
      Deltas.CheckedPlan(s, e.plan, e.sender);
      var j := Persist(c, s.journal, CommitMutation(r), Good).journal;
      ExistingRest(c, s.(journal := j), Later(s.watermark, e.clock), r, e.io, false);
      var t := ApplyExisting(c, s.(journal := j), Later(s.watermark, e.clock), r, e.io, false);
      assert t.journal.records == t.journal.records[..|j.records|] + Added(j, t.journal);
    }
  }

  lemma AbortWrites(c: Config, s: State, e: Event)
    requires c.hasJournal && Flushed(s) && GoodIo(e) && e.AbortApply?
    ensures var reply := AbortPlan(c, s, e.plan, e.clock, e.io); Writes(c, s, e, reply) && Flushed(reply.state)
  {
    hide Persist, StillHealthy, Publishes;
    PersistGood(c.(durable := false), s.journal, CommitMutation(AbortMarker(e.plan)));
  }

  /** These calls write nothing. */
  lemma SilentWrites(c: Config, s: State, e: Event)
    requires Flushed(s) && (e.Discredit? || e.RefreshAll? || e.ExplainOne? || e.Stop?)
    ensures e.Discredit? ==> var reply := InvalidateEvidence(s, e.queue, e.principal, e.epoch, e.clock); reply.state.journal == s.journal
    ensures e.RefreshAll? ==> Refresh(c, s, e.clock).state.journal == s.journal
    ensures e.ExplainOne? ==> Explain(s, e.queue, e.clock).state.journal == s.journal
    ensures e.Stop? ==> Shutdown(c, s, e.clock, e.io).state.journal == s.journal
  {
    hide CheckInvalidation, Discredited, AllRefreshed;
  }

  lemma SameJournalWrites(c: Config, s: State, e: Event, reply: Reply)
    requires Flushed(s) && (e.Discredit? || e.RefreshAll? || e.ExplainOne? || e.Stop?) && reply.state.journal == s.journal
    ensures Writes(c, s, e, reply) && Flushed(reply.state)
  {
    hide Publishes;
  }

  lemma QuietWrites(c: Config, s: State, e: Event)
    requires c.hasJournal && Flushed(s) && GoodIo(e) && (e.AbortApply? || e.Discredit? || e.RefreshAll? || e.ExplainOne? || e.Stop?)
    ensures Writes(c, s, e, Step(c, s, e)) && Flushed(Step(c, s, e).state)
  {
    hide Writes, Flushed, Apply, DeclareResource, GrantCapabilities, DeclareClass, DeclarePool, AddBackend, MarkDead, AdvanceEpoch,
      InvalidateEvidence, Refresh, Explain, Reserve, CommitPlan, AbortPlan, Compact, Shutdown, Recover;
    assert Unfold(c, s, e);
    if e.AbortApply? {
      AbortWrites(c, s, e);
    } else {
      SilentWrites(c, s, e);
      SameJournalWrites(c, s, e, Step(c, s, e));
    }
  }

  /** A compaction replaces every record by the snapshot, or changes nothing. */
  lemma CompactWrites(c: Config, s: State, e: Event)
    requires e.CompactJournal? && Flushed(s)
    ensures Writes(c, s, e, Step(c, s, e)) && Flushed(Step(c, s, e).state)
    ensures !Step(c, s, e).verdict.Took? ==> Step(c, s, e).state == s
  {
    hide Apply, DeclareResource, GrantCapabilities, DeclareClass, DeclarePool, AddBackend, MarkDead, AdvanceEpoch, InvalidateEvidence, Refresh,
      Explain, Reserve, CommitPlan, AbortPlan, Shutdown, Recover, Snapshot, Publishes;
    assert Unfold(c, s, e);
  }

  lemma StepWrites(c: Config, s: State, e: Event)
    requires c.hasJournal && Counted(s) && Flushed(s) && GoodIo(e)
    ensures Writes(c, s, e, Step(c, s, e)) && Flushed(Step(c, s, e).state)
  {
    hide Step, Writes, Counted, Flushed;
    if e.GrantTo? || e.NewClass? || e.NewPool? || e.BackendDied? {
      EditWrites(c, s, e);
    } else if e.AbortApply? || e.Discredit? || e.RefreshAll? || e.ExplainOne? || e.Stop? {
      QuietWrites(c, s, e);
    } else if e.CompactJournal? {
      CompactWrites(c, s, e);
    } else {
      SomeWrites(c, s, e);
    }
  }

  lemma SomeWrites(c: Config, s: State, e: Event)
    requires c.hasJournal && Counted(s) && Flushed(s) && GoodIo(e)
    requires e.Mutate? || e.NewResource? || e.NewBackend? || e.NewEpoch? || e.PlanApply? || e.CommitApply?
    ensures Writes(c, s, e, Step(c, s, e)) && Flushed(Step(c, s, e).state)
  {
    hide Writes, Counted, Flushed, Apply, DeclareResource, GrantCapabilities, DeclareClass, DeclarePool, AddBackend, MarkDead, AdvanceEpoch,
      InvalidateEvidence, Refresh, Explain, Reserve, CommitPlan, AbortPlan, Compact, Shutdown, Recover;
    assert Unfold(c, s, e);
    match e
    case Mutate(_, _, _) => MutateWrites(c, s, e);
    case NewResource(_, _, _, _, _) => NewResourceWrites(c, s, e);
    case NewBackend(_, _, _, _, _, _, _) => NewBackendWrites(c, s, e);
    case NewEpoch(_, _, _, _) => AdvanceWrites(c, s, e);
    case PlanApply(_, _, _, _, _, _) => ReserveWrites(c, s, e);
    case CommitApply(_, _, _, _, _) => CommitWrites(c, s, e);
  }
}
