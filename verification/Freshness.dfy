/** Occupancy evidence that has stopped being fresh stays so until a new sample
    is taken. */
module FreshnessLost {
  import opened Status
  import opened Entities
  import opened Mutations
  import opened Work
  import opened Machine
  import opened Evolution
  import opened Recovery
  import opened Run
  import opened Steps
  import opened Reach
  import opened Occupancies
  import opened Policies
  import Soundness
  import Deltas
  import Drains
  import Laws
  import Backends
  import Lifecycles

  /** The configuration the law is promised for. */
  predicate Strict(c: Config) {
    c.occupancy.requireGeneration && c.occupancy.maxFutureSkew > 0
  }

  function FreshnessAt(c: Config, q: Queue, now: int): Freshness {
    Classify(q.occupancy, now, QueuePolicy(c, q.def), q.def.generation)
  }

  // ---- one queue ------------------------------------------------------------

  /** Evidence that could still count was not observed too far ahead. */
  predicate Timely(c: Config, q: Queue, now: int) {
    q.occupancy.present && !Sticky(q.occupancy.freshness) && q.occupancy.generation == q.def.generation ==>
      q.occupancy.observedAt <= now + c.occupancy.maxFutureSkew
  }

  predicate Lost(c: Config, q: Queue, now: int) {
    Timely(c, q, now) && !FreshnessAt(c, q, now).Fresh?
  }

  lemma PolicyBounds(c: Config, def: Definition)
    ensures QueuePolicy(c, def).requireGeneration == c.occupancy.requireGeneration
    ensures QueuePolicy(c, def).maxFutureSkew == c.occupancy.maxFutureSkew
  {
    hide PolicyFor;
    Laws.WindowFallsBack(c.policy, c.occupancy, def);
  }

  /** Time alone brings nothing back. */
  lemma LostLater(c: Config, q: Queue, now: int, later: int)
    requires Strict(c) && Lost(c, q, now) && now <= later
    ensures Lost(c, q, later)
  {
    hide QueuePolicy;
    PolicyBounds(c, q.def);
  }

  /** How a queue's evidence changes without a new sample. */
  predicate EvidenceStep(c: Config, q: Queue, next: Queue, now: int) {
    || (next.def == q.def && next.occupancy == q.occupancy)
    || (next.def.generation == q.def.generation + 1 && next.occupancy == Invalidate(q.occupancy, StaleGenerationSeen))
    || !next.occupancy.present
    || Sticky(next.occupancy.freshness)
    || (next.def == q.def && next.occupancy == Refreshed(c, q, now).occupancy)
  }

  lemma EvidenceStepLost(c: Config, q: Queue, next: Queue, now: int, later: int)
    requires Strict(c) && Lost(c, q, now) && now <= later && EvidenceStep(c, q, next, later)
    requires q.occupancy.present ==> q.occupancy.generation <= q.def.generation
    ensures Lost(c, next, later)
  {
    hide QueuePolicy;
    LostLater(c, q, now, later);
    PolicyBounds(c, q.def);
    PolicyBounds(c, next.def);
  }

  lemma EvidenceStepTimely(c: Config, q: Queue, next: Queue, now: int, later: int)
    requires Timely(c, q, now) && now <= later && EvidenceStep(c, q, next, later)
    requires q.occupancy.present ==> q.occupancy.generation <= q.def.generation
    ensures Timely(c, next, later)
  {
    hide QueuePolicy;
  }

  /** A taken sample is at most the permitted skew ahead of the clock. */
  lemma PerformEvidence(c: Config, env: Env, q: Queue, r: Request)
    requires PayloadMatches(r.kind, r.payload)
    ensures var w := Perform(c, env, q, r); w.Done? && !r.kind.IngestOccupancy? ==> EvidenceStep(c, q, w.queue, env.now)
    ensures var w := Perform(c, env, q, r); Strict(c) && w.Done? && r.kind.IngestOccupancy? ==> Timely(c, w.queue, env.now)
  {
    hide CheckBinding, Drains.Assess, Backends.FindLive, Backends.Verify, QueuePolicy, SameLife, Bounded, Lifecycles.CheckTransition, NoteZero,
      Refreshed;
    PolicyBounds(c, q.def);
  }

  lemma WorkedEvidence(c: Config, s: State, now: int, q: Queue, r: Request, next: Queue)
    requires Worked(c, s, now, q, r, false, next)
    ensures !r.kind.IngestOccupancy? ==> EvidenceStep(c, q, next, now)
    ensures Strict(c) && r.kind.IngestOccupancy? ==> Timely(c, next, now)
  {
    hide Perform, Admitted, Remembered, PayloadMatches, Durable, Kept, Refreshed;
    Soundness.AdmittedResource(c, s, q, r, false);
    PerformEvidence(c, EnvAt(s, q, now), q, r);
    var w := Perform(c, EnvAt(s, q, now), q, r);
    RememberedKept(c, w.queue, r, Ok, Durable(r.kind) && c.hasJournal);
    KeptEvidence(c, r, w.queue, next);
  }

  lemma KeptEvidence(c: Config, r: Request, q: Queue, next: Queue)
    requires Kept(c, r, q, next)
    ensures next.def == q.def && next.occupancy == q.occupancy
  {
    hide MemoGrows;
  }

  // ---- one call -------------------------------------------------------------

  /** A class redeclaration overwrote a reason that only new evidence should
      clear. */
  predicate Overwrites(s: State, e: Event, next: State, i: Id) {
    && e.NewClass? && i in s.queues && i in next.queues
    && s.queues[i].occupancy.present && Sticky(s.queues[i].occupancy.freshness) && !Sticky(next.queues[i].occupancy.freshness)
  }

  /** The step took a new sample for queue i. */
  predicate Ingests(s: State, e: Event, reply: Reply, i: Id) {
    && reply.verdict.Took? && RequestOf(s, e).Some?
    && RequestOf(s, e).value.kind.IngestOccupancy? && RequestOf(s, e).value.queue == i
  }

  lemma MarkedEvidence(c: Config, s: State, e: Event, next: State, i: Id)
    requires i in s.queues && Marked(c, s, e, next, i) && !e.NewClass?
    ensures i in next.queues && EvidenceStep(c, s.queues[i], next.queues[i], next.watermark)
  {
    hide QueuePolicy, Classify;
  }

  /** A redeclaration that overwrites no sticky reason changes no verdict. */
  lemma UnboundEvidence(c: Config, s: State, e: Event, next: State, i: Id, now: int, later: int)
    requires Strict(c) && now <= later && i in s.queues && Marked(c, s, e, next, i) && e.NewClass? && !Overwrites(s, e, next, i)
    ensures i in next.queues
    ensures Timely(c, s.queues[i], now) ==> Timely(c, next.queues[i], later)
    ensures Lost(c, s.queues[i], now) ==> Lost(c, next.queues[i], later)
  {
    hide QueuePolicy, NextClass;
    if Lost(c, s.queues[i], now) {
      LostLater(c, s.queues[i], now, later);
    }
    PolicyBounds(c, s.queues[i].def);
  }

  predicate TimelyAt(c: Config, s: State, i: Id) {
    i in s.queues ==> Timely(c, s.queues[i], s.watermark)
  }

  predicate LostAt(c: Config, s: State, i: Id) {
    i in s.queues ==> Lost(c, s.queues[i], s.watermark)
  }

  lemma InstalledLost(c: Config, s: State, r: Request, reply: Reply, i: Id, now: int)
    requires Installed(c, s, r, false, reply, i)
    ensures Lost(c, reply.state.queues[i], now)
  {
    hide CheckDeclaration, Check, Remembered, Kept, QueuePolicy;
    var q := NewQueue(r, i, reply.state.watermark);
    RememberedKept(c, q, r, Ok, c.hasJournal);
    KeptEvidence(c, r, q, reply.state.queues[i]);
  }

  lemma HandledEvidence(c: Config, s: State, r: Request, reply: Reply, i: Id)
    requires i in s.queues && Handled(c, s, r, false, reply, i)
    ensures i in reply.state.queues
    ensures (reply.verdict.Took? && r.kind.IngestOccupancy? && r.queue == i) ||
      EvidenceStep(c, s.queues[i], reply.state.queues[i], reply.state.watermark)
    ensures Strict(c) && reply.verdict.Took? && r.kind.IngestOccupancy? && r.queue == i ==>
      Timely(c, reply.state.queues[i], reply.state.watermark)
  {
    hide Worked, Kept, Refreshed;
    if reply.verdict.Took? && r.queue == i && !r.kind.DeclareQueue? {
      WorkedEvidence(c, s, reply.state.watermark, s.queues[i], r, reply.state.queues[i]);
    } else {
      KeptEvidence(c, r, s.queues[i], reply.state.queues[i]);
    }
  }

  lemma QueueEvidence(c: Config, s: State, e: Event, reply: Reply, i: Id)
    requires Strict(c) && AllSound(c, s) && QueueSteps(c, s, e, reply) && CoreStep(s, e, reply.state)
    requires !Overwrites(s, e, reply.state, i) && TimelyAt(c, s, i)
    ensures TimelyAt(c, reply.state, i)
    ensures LostAt(c, s, i) && !Ingests(s, e, reply, i) ==> LostAt(c, reply.state, i)
  {
    hide Handled, Marked, HasTarget, Installed, Timely, Lost, EvidenceStep, Overwrites, Soundness.Coherent, Soundness.WithinBounds;
    var now, later := s.watermark, reply.state.watermark;
    if i in s.queues {
      assert QueueStep(c, s, e, reply, i);
      if RequestOf(s, e).Some? {
        HandledEvidence(c, s, RequestOf(s, e).value, reply, i);
      } else if e.NewClass? {
        UnboundEvidence(c, s, e, reply.state, i, now, later);
      } else {
        MarkedEvidence(c, s, e, reply.state, i);
      }
      var q, next := s.queues[i], reply.state.queues[i];
      if EvidenceStep(c, q, next, later) {
        EvidenceStepTimely(c, q, next, now, later);
        if Lost(c, q, now) {
          EvidenceStepLost(c, q, next, now, later);
        }
      }
    } else if i in reply.state.queues {
      InstalledLost(c, s, e.request, reply, i, later);
      LostTimely(c, reply.state.queues[i], later);
    }
  }

  lemma LostTimely(c: Config, q: Queue, now: int)
    requires Lost(c, q, now)
    ensures Timely(c, q, now)
  {
    hide Timely, FreshnessAt;
  }

  lemma StepEvidence(c: Config, s: State, e: Event, i: Id)
    requires Strict(c) && Inv(c, s) && !e.Restart? && !Overwrites(s, e, Step(c, s, e).state, i) && TimelyAt(c, s, i)
    ensures TimelyAt(c, Step(c, s, e).state, i)
    ensures LostAt(c, s, i) && !Ingests(s, e, Step(c, s, e), i) ==> LostAt(c, Step(c, s, e).state, i)
  {
    hide Step, QueueSteps, ResourceSteps, CoreStep, JournalStep, Counted, AllSound, EpochsAgree, EpochStored, RecordsSound,
      TimelyAt, LostAt, Overwrites, Ingests;
    Deltas.StepDelta(c, s, e);
    QueueEvidence(c, s, e, Step(c, s, e), i);
  }

  // ---- recovery -------------------------------------------------------------

  /** A recovered fabric trusts no stored observation. */
  lemma RestartLoses(c: Config, s: State, e: Event, i: Id)
    requires e.Restart? && Step(c, s, e).verdict.Took?
    ensures LostAt(c, Step(c, s, e).state, i) && TimelyAt(c, Step(c, s, e).state, i)
  {
    hide Load, Base, Replay, Rebuild, Apply, Survivor, QueuePolicy, Orphaned;
    assert Unfold(c, s, e);
    if c.hasJournal {
      var j := Survivor(s.journal, e.keep);
      var l := Load(j.records, j.headerEpoch);
      var replayed := Replay(c, Base(l, j, e.boot), l.order, e.feed);
      RebuildRest(Distrust(replayed, l.outstanding));
    }
  }

  lemma StartLoses(c: Config, boot: Boot, i: Id)
    ensures TimelyAt(c, Start(c, boot), i) && LostAt(c, Start(c, boot), i)
  {
    hide Base, Replay, Rebuild, Apply, QueuePolicy, Orphaned;
    if c.hasJournal {
      var l := Load([], 0);
      RebuildRest(Distrust(Replay(c, Base(l, Journal([], 0, 0), boot), l.order, []), l.outstanding));
    }
  }

  // ---- runs -----------------------------------------------------------------

  /** No class redeclaration in the run overwrites a sticky reason of queue i. */
  ghost predicate NeverOverwritten(c: Config, s: State, es: seq<Event>, i: Id) {
    es == [] ||
    (NeverOverwritten(c, s, es[..|es| - 1], i) && !Overwrites(Exec(c, s, es[..|es| - 1]), es[|es| - 1], Exec(c, s, es), i))
  }

  lemma {:induction false} RunTimely(c: Config, s: State, es: seq<Event>, i: Id)
    requires Strict(c) && Inv(c, s) && Serves(c, s, es) && NeverOverwritten(c, s, es, i) && TimelyAt(c, s, i)
    ensures TimelyAt(c, Exec(c, s, es), i)
  {
    hide Step, Inv, TimelyAt, LostAt, Overwrites, Ingests;
    if es != [] {
      var n := |es| - 1;
      RunTimely(c, s, es[..n], i);
      ExecInv(c, s, es[..n]);
      if es[n].Restart? {
        RestartLoses(c, Exec(c, s, es[..n]), es[n], i);
      } else {
        StepEvidence(c, Exec(c, s, es[..n]), es[n], i);
      }
    }
  }

  ghost predicate IngestedFrom(c: Config, s: State, es: seq<Event>, m: nat, i: Id) {
    exists k :: m <= k < |es| && Ingests(Exec(c, s, es[..k]), es[k], Step(c, Exec(c, s, es[..k]), es[k]), i)
  }

  lemma {:induction false} RunLoses(c: Config, s: State, es: seq<Event>, m: nat, i: Id)
    requires Strict(c) && Inv(c, s) && Serves(c, s, es) && NeverOverwritten(c, s, es, i) && TimelyAt(c, s, i)
    requires m <= |es| && LostAt(c, Exec(c, s, es[..m]), i) && !IngestedFrom(c, s, es, m, i)
    ensures LostAt(c, Exec(c, s, es), i)
  {
    hide Step, Inv, TimelyAt, LostAt, Overwrites, Ingests;
    assert es[..|es|] == es;
    if m < |es| {
      var n := |es| - 1;
      var before := es[..n];
      assert before[..m] == es[..m];
      assert forall k | m <= k < n :: before[..k] == es[..k];
      assert !IngestedFrom(c, s, before, m, i);
      RunLoses(c, s, before, m, i);
      RunTimely(c, s, before, i);
      ExecInv(c, s, before);
      if es[n].Restart? {
        RestartLoses(c, Exec(c, s, before), es[n], i);
      } else {
        StepEvidence(c, Exec(c, s, before), es[n], i);
      }
    }
  }

  /** The verdict an explanation at that time would give on queue i. */
  predicate FreshAt(c: Config, s: State, i: Id, now: int) {
    i in s.queues && FreshnessAt(c, s.queues[i], now).Fresh?
  }

  /** Once an observation does not classify as fresh, no mutations, refreshes,
      epoch advances, invalidations, restarts or clock jumps make it fresh
      again: only a newly taken sample does. */
  lemma AuthorityOnlyLost(c: Config, boot: Boot, es: seq<Event>, m: nat, i: Id, now: int)
    requires Strict(c) && m <= |es|
    requires var s := Start(c, boot);
      && Serves(c, s, es) && NeverOverwritten(c, s, es, i)
      && !FreshAt(c, Exec(c, s, es[..m]), i, Exec(c, s, es[..m]).watermark)
      && Exec(c, s, es).watermark <= now && FreshAt(c, Exec(c, s, es), i, now)
    ensures IngestedFrom(c, Start(c, boot), es, m, i)
  {
    hide Step, Inv, Start, FreshnessAt, Timely, IngestedFrom, NeverOverwritten, Overwrites, Exec, Strict;
    var s := Start(c, boot);
    StartInv(c, boot);
    StartLoses(c, boot, i);
    PrefixServes(c, s, es, m, i);
    RunTimely(c, s, es[..m], i);
    if !IngestedFrom(c, s, es, m, i) {
      RunLoses(c, s, es, m, i);
      LostLater(c, Exec(c, s, es).queues[i], Exec(c, s, es).watermark, now);
    }
  }

  lemma {:induction false} PrefixServes(c: Config, s: State, es: seq<Event>, m: nat, i: Id)
    requires Serves(c, s, es) && NeverOverwritten(c, s, es, i) && m <= |es|
    ensures Serves(c, s, es[..m]) && NeverOverwritten(c, s, es[..m], i)
  {
    hide Step, Overwrites;
    if m < |es| {
      assert es[..|es| - 1][..m] == es[..m];
      PrefixServes(c, s, es[..|es| - 1], m, i);
    } else {
      assert es[..m] == es;
    }
  }

  // ---- the exception: class redeclaration -----------------------------------

  /** The stored observation would count if its reason were not sticky. */
  predicate InWindow(c: Config, q: Queue, now: int) {
    var o, p := q.occupancy, QueuePolicy(c, q.def);
    && o.present
    && (p.requireGeneration ==> o.generation == q.def.generation)
    && (o.observedAt > now ==> p.maxFutureSkew > 0 && o.observedAt - now <= p.maxFutureSkew)
    && (p.maxAge > 0 ==> AgeAt(now, o.observedAt) <= p.maxAge)
  }

  /** Queue q is bound to another generation of the class declared. */
  predicate Unbinds(q: Queue, resource: Id, cls: Class) {
    q.def.resource == resource && q.def.cls.id == cls.id && q.def.cls.generation != cls.generation
  }

  lemma ClassTaken(c: Config, s: State, e: Event)
    requires e.NewClass? && Step(c, s, e).verdict.Took?
    ensures e.resource in s.resources
    ensures Step(c, s, e).state.queues ==
      map i | i in s.queues :: Unbound(s.queues[i], e.resource, NextClass(s, e.resource, e.name, e.priority, e.qos, e.sender))
  {
    hide Apply, DeclareResource, GrantCapabilities, DeclarePool, AddBackend, MarkDead, AdvanceEpoch, InvalidateEvidence, Refresh, Explain,
      Reserve, CommitPlan, AbortPlan, Compact, Shutdown, Recover, Persist, Unbound, NextClass, ClassEdit, Deltas.EditOk;
    assert Unfold(c, s, e);
    Deltas.ClassEditOk(c, s, e);
    var edit := ClassEdit(c, s, e.resource, e.name, e.priority, e.qos, e.principal, e.epoch, e.sender);
    if edit.Edit? {
      Deltas.EditResource(s, e, e.resource, edit);
    }
  }

  /** A redeclaration makes stale evidence fresh exactly when it unbinds a queue
      whose evidence was set aside for good but is otherwise in its window. */
  lemma RedeclarationRevives(c: Config, s: State, e: Event, i: Id)
    requires e.NewClass? && Step(c, s, e).verdict.Took? && i in s.queues && e.resource in s.resources
    ensures i in Step(c, s, e).state.queues
    ensures var q, now := s.queues[i], Step(c, s, e).state.watermark;
      !FreshnessAt(c, q, now).Fresh? && FreshnessAt(c, Step(c, s, e).state.queues[i], now).Fresh? <==>
        && Unbinds(q, e.resource, NextClass(s, e.resource, e.name, e.priority, e.qos, e.sender))
        && Sticky(q.occupancy.freshness) && InWindow(c, q, now)
  {
    hide Step, QueuePolicy, NextClass, Classify;
    ClassTaken(c, s, e);
    var q, next, now := s.queues[i], Step(c, s, e).state.queues[i], Step(c, s, e).state.watermark;
    Laws.FreshIsExact(q.occupancy, now, QueuePolicy(c, q.def), q.def.generation);
    Laws.FreshIsExact(next.occupancy, now, QueuePolicy(c, next.def), next.def.generation);
  }
}
