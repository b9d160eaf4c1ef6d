/** What holds of every queue record in every reachable state, in memory and in
    the journal. */
module Soundness {
  import opened Status
  import opened Entities
  import opened Lifecycles
  import opened Authorities
  import opened Mutations
  import opened Work
  import opened Machine
  import opened Evolution
  import Backends
  import Drains
  import Laws
  import Memos
  import Provenances

  // ---- one queue ------------------------------------------------------------

  /** Texts, evidence and memo fit the bounds they are stored under. */
  predicate WithinBounds(c: Config, q: Queue) {
    && |q.def.name| <= MAX_NAME && |q.failure| <= MAX_REASON && |q.fence.reason| <= MAX_REASON
    && q.drain.evidence.records <= c.policy.maxEvidence
    && Fits(q.memo, c.limits.maxMemo)
  }

  /** A draining queue has a drain in progress, the fence flag is the fence
      record, and a retired queue has neither occupancy nor drain. */
  predicate Coherent(q: Queue) {
    && (q.lifecycle.Draining? ==> q.drain.InProgress())
    && q.flags.fenced == q.fence.fenced
    && (q.lifecycle.Retired? ==> !q.occupancy.present && q.drain == NO_DRAIN)
  }

  /** Evidence never comes from a generation or epoch that is still to come. */
  predicate Dated(q: Queue, epoch: nat) {
    && q.def.generation >= 1
    && (q.occupancy.present ==> q.occupancy.generation <= q.def.generation)
    && (q.applied.known ==>
      && q.applied.epoch <= epoch && q.applied.generation <= q.def.generation
      && (q.applied.generation == q.def.generation ==> q.applied.cls == q.def.cls))
  }

  predicate Sound(c: Config, q: Queue, epoch: nat) {
    WithinBounds(c, q) && Coherent(q) && Dated(q, epoch)
  }

  lemma PerformWithinBounds(c: Config, env: Env, q: Queue, r: Request)
    requires PayloadMatches(r.kind, r.payload) && WithinBounds(c, q)
    ensures var w := Perform(c, env, q, r); w.Done? ==> WithinBounds(c, w.queue) && w.queue.memo == q.memo
  {
    hide CheckBinding, Drains.Assess, Backends.Verify, Backends.FindLive, QueuePolicy, Fits, CheckTransition, SameLife;
  }

  /** What authorization lets through: only an unfence while fenced, only a
      retirement once retired or failed. */
  predicate Permitted(q: Queue, r: Request) {
    && (q.flags.fenced ==> r.kind.UnfenceQueue?)
    && (q.lifecycle.Retired? || q.lifecycle.Failed? ==> r.kind.RetireQueue?)
  }

  lemma AdmittedPermitted(c: Config, s: State, q: Queue, r: Request, replaying: bool)
    requires Admitted(c, s, q, r, replaying)
    ensures Permitted(q, r)
  {
    hide Memos.Find, Provenances.Classify, CheckCurrent, Holds, CapabilitiesOf, Authorize;
    var authority := s.resources[q.def.resource].authority;
    Laws.AuthorizationIsExact(authority, r.principal, Required(r.kind), if replaying then authority.epoch else r.expectedEpoch, q.flags, q.lifecycle);
  }

  lemma PerformDrains(c: Config, env: Env, q: Queue, r: Request)
    requires PayloadMatches(r.kind, r.payload) && (q.lifecycle.Draining? ==> q.drain.InProgress())
    ensures var w := Perform(c, env, q, r); w.Done? && w.queue.lifecycle.Draining? ==> w.queue.drain.InProgress()
  {
    hide CheckBinding, Drains.Assess, Backends.Verify, Backends.FindLive, QueuePolicy, SameLife, Bounded, CheckTransition;
  }

  /** Retiring keeps the fence flag equal to the fence record only because
      authorization refuses fenced queues. */
  lemma PerformFences(c: Config, env: Env, q: Queue, r: Request)
    requires PayloadMatches(r.kind, r.payload) && q.flags.fenced == q.fence.fenced && Permitted(q, r)
    ensures var w := Perform(c, env, q, r); w.Done? ==> w.queue.flags.fenced == w.queue.fence.fenced
  {
    hide CheckBinding, Drains.Assess, Backends.Verify, Backends.FindLive, QueuePolicy, SameLife, Bounded, CheckTransition;
  }

  lemma PerformRetires(c: Config, env: Env, q: Queue, r: Request)
    requires PayloadMatches(r.kind, r.payload) && Permitted(q, r)
    requires q.lifecycle.Retired? ==> !q.occupancy.present && q.drain == NO_DRAIN
    ensures var w := Perform(c, env, q, r);
      w.Done? && w.queue.lifecycle.Retired? ==> !w.queue.occupancy.present && w.queue.drain == NO_DRAIN
  {
    hide CheckBinding, Drains.Assess, Backends.Verify, Backends.FindLive, QueuePolicy, SameLife, Bounded, CheckTransition;
  }

  /** The result, if there is one, is dated. */
  predicate DatedResult(w: Result, epoch: nat) {
    w.Done? ==> Dated(w.queue, epoch)
  }

  lemma RedefineDated(q: Queue, def: Definition, epoch: nat)
    requires Dated(q, epoch)
    ensures DatedResult(Redefine(q, def), epoch)
  {
  }

  lemma DefinitionDated(env: Env, q: Queue, binding: ClassBinding, limits: Thresholds, owner: Id)
    requires Dated(q, env.epoch)
    ensures DatedResult(Rebind(env, q, binding), env.epoch) && DatedResult(Work.SetLimits(q, limits), env.epoch)
    ensures DatedResult(Transfer(q, owner), env.epoch)
  {
    hide CheckBinding, Redefine, Dated;
    RedefineDated(q, q.def.(cls := binding), env.epoch);
    RedefineDated(q, q.def.(thresholds := limits), env.epoch);
    RedefineDated(q, q.def.(owner := owner), env.epoch);
  }

  lemma MoveDated(c: Config, env: Env, q: Queue, r: Request)
    requires Dated(q, env.epoch)
    ensures DatedResult(Validate(env, q), env.epoch) && DatedResult(Activate(env, q), env.epoch)
    ensures DatedResult(BeginDrain(env, q, r), env.epoch) && DatedResult(EndDrain(q), env.epoch)
    ensures DatedResult(Retire(q), env.epoch) && DatedResult(Quiesce(c, env, q), env.epoch)
  {
    hide CheckBinding, CheckTransition, Drains.Assess, Backends.Verify, Backends.FindLive, QueuePolicy;
  }

  lemma FenceDated(env: Env, q: Queue, r: Request, reason: Text)
    requires Dated(q, env.epoch)
    ensures DatedResult(Raise(env, q, r, reason), env.epoch) && DatedResult(Lower(q), env.epoch) && DatedResult(Work.Fail(q, reason), env.epoch)
  {
    hide Bounded, CheckTransition;
  }

  /** Samples and acknowledgements are taken only for the current generation and
      epoch. */
  lemma SampleDated(c: Config, env: Env, q: Queue, sample: Sample, expectedEpoch: nat)
    requires Dated(q, env.epoch)
    ensures DatedResult(Ingest(c, env, q, sample, expectedEpoch), env.epoch)
  {
    hide QueuePolicy, SameLife, NoteZero;
  }

  lemma EvidenceDated(c: Config, env: Env, q: Queue, evidence: Evidence, applied: Applied)
    requires Dated(q, env.epoch)
    ensures DatedResult(Submit(c, env, q, evidence), env.epoch) && DatedResult(Acknowledge(env, q, applied), env.epoch)
  {
    hide Backends.FindLive;
  }

  lemma PerformDated(c: Config, env: Env, q: Queue, r: Request)
    requires PayloadMatches(r.kind, r.payload) && Dated(q, env.epoch)
    ensures DatedResult(Perform(c, env, q, r), env.epoch)
  {
    hide Validate, Activate, Rebind, Work.SetLimits, Transfer, BeginDrain, EndDrain, Raise, Lower, Work.Fail, Retire, Ingest, Submit, Acknowledge,
      Quiesce, Dated;
    if r.payload.NoPayload? {
      MoveDated(c, env, q, r);
    } else if r.payload.RebindPayload? {
      DefinitionDated(env, q, r.payload.binding, q.def.thresholds, 0);
    } else if r.payload.ThresholdsPayload? {
      DefinitionDated(env, q, q.def.cls, r.payload.limits, 0);
    } else if r.payload.OwnershipPayload? {
      DefinitionDated(env, q, q.def.cls, q.def.thresholds, r.payload.owner);
    } else if r.payload.FencePayload? {
      FenceDated(env, q, r, r.payload.reason);
    } else if r.payload.OccupancyPayload? {
      SampleDated(c, env, q, r.payload.sample, r.expectedEpoch);
    } else if r.payload.EvidencePayload? {
      EvidenceDated(c, env, q, r.payload.evidence, NOT_APPLIED);
    } else if r.payload.AckPayload? {
      EvidenceDated(c, env, q, NO_EVIDENCE, r.payload.applied);
    }
  }

  lemma KeptSound(c: Config, r: Request, q: Queue, next: Queue, epoch: nat)
    requires Sound(c, q, epoch) && Kept(c, r, q, next)
    ensures Sound(c, next, epoch) && next.def == q.def
  {
    hide Fits;
  }

  /** Work admitted on a sound queue leaves a sound queue. */
  lemma WorkedSound(c: Config, s: State, now: int, q: Queue, r: Request, replaying: bool, next: Queue)
    requires Sound(c, q, s.epoch) && Worked(c, s, now, q, r, replaying, next)
    ensures Sound(c, next, s.epoch) && next.def.id == q.def.id
  {
    hide Perform, Admitted, Remembered, WithinBounds, Coherent, Dated, PayloadMatches, Durable;
    AdmittedPermitted(c, s, q, r, replaying);
    assert q.def.resource in s.resources by {
      AdmittedResource(c, s, q, r, replaying);
    }
    var env := EnvAt(s, q, now);
    var w := Perform(c, env, q, r);
    PerformWithinBounds(c, env, q, r);
    assert Coherent(w.queue) by {
      WorkedCoherent(c, env, q, r);
    }
    PerformDated(c, env, q, r);
    PerformKeepsId(c, env, q, r);
    RememberedKept(c, w.queue, r, Ok, Durable(r.kind) && c.hasJournal);
    KeptSound(c, r, w.queue, next, s.epoch);
  }

  lemma WorkedCoherent(c: Config, env: Env, q: Queue, r: Request)
    requires PayloadMatches(r.kind, r.payload) && Coherent(q) && Permitted(q, r)
    ensures var w := Perform(c, env, q, r); w.Done? ==> Coherent(w.queue)
  {
    hide Perform, Permitted, PayloadMatches;
    PerformDrains(c, env, q, r);
    PerformFences(c, env, q, r);
    PerformRetires(c, env, q, r);
  }

  lemma AdmittedResource(c: Config, s: State, q: Queue, r: Request, replaying: bool)
    requires Admitted(c, s, q, r, replaying)
    ensures q.def.resource in s.resources
  {
  }

  /** Identity, resource, name, depth, pool and declarer never change. */
  lemma PerformKeepsId(c: Config, env: Env, q: Queue, r: Request)
    requires PayloadMatches(r.kind, r.payload)
    ensures var w := Perform(c, env, q, r); w.Done? ==>
      w.queue.def == q.def.(generation := w.queue.def.generation, cls := w.queue.def.cls,
        thresholds := w.queue.def.thresholds, owner := w.queue.def.owner)
  {
    hide CheckBinding, Drains.Assess, Backends.Verify, Backends.FindLive, QueuePolicy, SameLife, Bounded, CheckTransition, NoteZero;
  }

  /** A memo change within bounds keeps a queue sound. */
  lemma NewQueueSound(c: Config, r: Request, id: Id, now: int, epoch: nat)
    requires r.payload.DeclarePayload? && |r.payload.name| <= MAX_NAME
    ensures Sound(c, NewQueue(r, id, now), epoch)
  {
  }
}
