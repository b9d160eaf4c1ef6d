/** Retirement, failure and fencing over one process life. */
module Retirement {
  import opened Status
  import opened Entities
  import opened Lifecycles
  import opened Mutations
  import opened Work
  import opened Machine
  import opened Evolution
  import opened Run
  import opened Steps
  import opened Reach
  import opened Generations
  import Quiescence
  import Soundness
  import Deltas
  import Drains
  import Backends
  import Occupancies

  // ---- one mutation ---------------------------------------------------------

  /** Lifecycles move along the table, and not at all once retired. */
  predicate Moves(from: Lifecycle, to: Lifecycle) {
    from == to || Listed(from, to)
  }

  lemma PerformMoves(c: Config, env: Env, q: Queue, r: Request)
    requires PayloadMatches(r.kind, r.payload)
    ensures var w := Perform(c, env, q, r); w.Done? ==> Moves(q.lifecycle, w.queue.lifecycle)
  {
    hide CheckBinding, Drains.Assess, Backends.Verify, Backends.FindLive, QueuePolicy, SameLife, Bounded, NoteZero, Occupancies.Invalidate;
  }

  /** What a fence protects. */
  predicate SameGoverned(q: Queue, next: Queue) {
    next.def == q.def && next.lifecycle == q.lifecycle && next.drain == q.drain && next.applied == q.applied
  }

  /** An unfence touches the fence and nothing else. */
  lemma PerformUnfences(c: Config, env: Env, q: Queue, r: Request)
    requires PayloadMatches(r.kind, r.payload) && r.kind.UnfenceQueue?
    ensures var w := Perform(c, env, q, r); w.Done? ==> SameGoverned(q, w.queue) && !w.queue.fence.fenced
  {
    hide CheckBinding, Drains.Assess, Backends.Verify, Backends.FindLive, QueuePolicy;
  }

  /** A retired queue can only be retired again, which changes nothing. */
  lemma PerformOnRetired(c: Config, env: Env, q: Queue, r: Request)
    requires PayloadMatches(r.kind, r.payload) && r.kind.RetireQueue? && q.lifecycle.Retired?
    ensures Perform(c, env, q, r) == Done(q, 0)
  {
    hide CheckBinding, Drains.Assess, Backends.Verify, Backends.FindLive, QueuePolicy;
  }

  // ---- one call -------------------------------------------------------------

  /** The step took an unfence of queue i. */
  predicate Unfences(s: State, e: Event, reply: Reply, i: Id) {
    && reply.verdict.Took? && RequestOf(s, e).Some?
    && RequestOf(s, e).value.kind.UnfenceQueue? && RequestOf(s, e).value.queue == i
  }

  predicate Governed(s: State, e: Event, reply: Reply, i: Id)
    requires i in s.queues && i in reply.state.queues
  {
    var q, next := s.queues[i], reply.state.queues[i];
    && Moves(q.lifecycle, next.lifecycle)
    && (q.flags.fenced ==> SameGoverned(q, next) && (Unfences(s, e, reply, i) || (next.flags.fenced && next.fence == q.fence)))
    && (q.lifecycle.Retired? ==> next.def == q.def && next.fence == q.fence)
  }

  lemma KeptGoverned(c: Config, r: Request, q: Queue, next: Queue)
    requires Kept(c, r, q, next)
    ensures SameGoverned(q, next) && next.flags == q.flags && next.fence == q.fence
  {
    hide MemoGrows;
  }

  lemma MarkedGoverned(c: Config, s: State, e: Event, next: State, i: Id)
    requires i in s.queues && Marked(c, s, e, next, i)
    ensures i in next.queues && SameGoverned(s.queues[i], next.queues[i])
    ensures next.queues[i].flags.fenced == s.queues[i].flags.fenced && next.queues[i].fence == s.queues[i].fence
  {
    hide NextClass, QueuePolicy, Occupancies.Classify, Occupancies.Invalidate;
  }

  lemma WorkedGoverned(c: Config, s: State, now: int, q: Queue, r: Request, next: Queue)
    requires Soundness.Coherent(q) && Worked(c, s, now, q, r, false, next)
    ensures Moves(q.lifecycle, next.lifecycle)
    ensures q.flags.fenced ==> r.kind.UnfenceQueue? && SameGoverned(q, next)
    ensures q.lifecycle.Retired? ==> next.def == q.def && next.fence == q.fence
  {
    hide Perform, Admitted, Remembered, PayloadMatches, Durable, Kept, Moves;
    Soundness.AdmittedResource(c, s, q, r, false);
    Soundness.AdmittedPermitted(c, s, q, r, false);
    var env := EnvAt(s, q, now);
    PerformMoves(c, env, q, r);
    if q.flags.fenced {
      PerformUnfences(c, env, q, r);
    }
    if q.lifecycle.Retired? {
      PerformOnRetired(c, env, q, r);
    }
    var w := Perform(c, env, q, r);
    RememberedKept(c, w.queue, r, Ok, Durable(r.kind) && c.hasJournal);
    KeptGoverned(c, r, w.queue, next);
  }

  lemma QueueGoverned(c: Config, s: State, e: Event, reply: Reply, i: Id)
    requires AllSound(c, s) && QueueSteps(c, s, e, reply) && i in s.queues
    ensures i in reply.state.queues && Governed(s, e, reply, i)
  {
    hide Worked, Kept, Marked, HasTarget, Installed, Soundness.WithinBounds, Soundness.Dated, Soundness.Coherent, Listed;
    assert QueueStep(c, s, e, reply, i);
    if RequestOf(s, e).None? {
      MarkedGoverned(c, s, e, reply.state, i);
    } else {
      var r := RequestOf(s, e).value;
      if reply.verdict.Took? && r.queue == i && !r.kind.DeclareQueue? {
        WorkedGoverned(c, s, reply.state.watermark, s.queues[i], r, reply.state.queues[i]);
      } else {
        KeptGoverned(c, r, s.queues[i], reply.state.queues[i]);
      }
    }
  }

  lemma StepGoverned(c: Config, s: State, e: Event, i: Id)
    requires Inv(c, s) && !e.Restart? && i in s.queues
    ensures i in Step(c, s, e).state.queues && Governed(s, e, Step(c, s, e), i)
  {
    hide Step, QueueSteps, ResourceSteps, CoreStep, JournalStep, Counted, AllSound, EpochsAgree, EpochStored, RecordsSound, Governed;
    Deltas.StepDelta(c, s, e);
    QueueGoverned(c, s, e, Step(c, s, e), i);
  }

  // ---- one life -------------------------------------------------------------

  ghost predicate LifecycleIs(c: Config, s: State, es: seq<Event>, i: Id, l: Lifecycle) {
    i in Exec(c, s, es).queues && Exec(c, s, es).queues[i].lifecycle == l
  }

  /** Between the m-th event and the end, queue i was quiesced by a live call or
      failed. */
  ghost predicate LeftProperly(c: Config, s: State, es: seq<Event>, m: nat, i: Id) {
    exists k :: m < k <= |es| &&
      (Quiescence.BecomesQuiesced(c, s, es[..k], i) || LifecycleIs(c, s, es[..k], i, Failed))
  }

  lemma LeftProperlyOn(c: Config, s: State, es: seq<Event>, m: nat, i: Id)
    requires es != [] && LeftProperly(c, s, es[..|es| - 1], m, i)
    ensures LeftProperly(c, s, es, m, i)
  {
    hide Quiescence.BecomesQuiesced, LifecycleIs;
    var before := es[..|es| - 1];
    var k :| m < k <= |before| && (Quiescence.BecomesQuiesced(c, s, before[..k], i) || LifecycleIs(c, s, before[..k], i, Failed));
    assert before[..k] == es[..k];
  }

  lemma LeavesProperly(c: Config, s: State, es: seq<Event>, m: nat, i: Id)
    requires m < |es| && (Quiescence.BecomesQuiesced(c, s, es, i) || LifecycleIs(c, s, es, i, Failed))
    ensures LeftProperly(c, s, es, m, i)
  {
    hide Quiescence.BecomesQuiesced, LifecycleIs;
    assert es[..|es|] == es;
  }

  /** A queue that was serving is still serving, unless it was quiesced on
      evidence or failed in between: so no run takes an active queue to retired
      any other way. */
  lemma {:induction false} RetiresProperly(c: Config, s: State, es: seq<Event>, m: nat, i: Id)
    requires Inv(c, s) && OneLife(es) && m <= |es|
    requires LifecycleIs(c, s, es[..m], i, Active) || LifecycleIs(c, s, es[..m], i, Draining)
    ensures LifecycleIs(c, s, es, i, Active) || LifecycleIs(c, s, es, i, Draining) || LeftProperly(c, s, es, m, i)
  {
    hide Step, Inv, LeftProperly;
    if m == |es| {
      assert es[..m] == es;
    } else {
      var n := |es| - 1;
      var before := es[..n];
      assert before[..m] == es[..m];
      RetiresProperly(c, s, before, m, i);
      if LeftProperly(c, s, before, m, i) {
        LeftProperlyOn(c, s, es, m, i);
      } else {
        OneLifeServes(c, s, before);
        ExecInv(c, s, before);
        StepGoverned(c, Exec(c, s, before), es[n], i);
        if LifecycleIs(c, s, es, i, Quiesced) || LifecycleIs(c, s, es, i, Failed) {
          LeavesProperly(c, s, es, m, i);
        }
      }
    }
  }

  /** A retired queue's definition, lifecycle, idle drain and absent occupancy
      never change again. */
  lemma {:induction false} RetiredForGood(c: Config, s: State, es: seq<Event>, m: nat, i: Id)
    requires Inv(c, s) && OneLife(es) && m <= |es| && LifecycleIs(c, s, es[..m], i, Retired)
    ensures LifecycleIs(c, s, es, i, Retired)
    ensures var q, next := Exec(c, s, es[..m]).queues[i], Exec(c, s, es).queues[i];
      next.def == q.def && next.fence == q.fence && next.drain == NO_DRAIN && !next.occupancy.present
  {
    hide Step, Inv;
    if m == |es| {
      assert es[..m] == es;
    } else {
      var n := |es| - 1;
      assert es[..n][..m] == es[..m];
      RetiredForGood(c, s, es[..n], m, i);
      OneLifeServes(c, s, es[..n]);
      ExecInv(c, s, es[..n]);
      StepGoverned(c, Exec(c, s, es[..n]), es[n], i);
    }
    OneLifeServes(c, s, es);
    ExecInv(c, s, es);
    InvCoherent(c, Exec(c, s, es), i);
  }

  lemma InvCoherent(c: Config, s: State, i: Id)
    requires Inv(c, s) && i in s.queues
    ensures Soundness.Coherent(s.queues[i])
  {
    hide Counted, EpochsAgree, RecordsSound, EpochStored, Soundness.WithinBounds, Soundness.Dated, Soundness.Coherent;
  }

  /** In every reachable state the fenced flag is what the fence record says, and
      a draining queue has a drain in progress. */
  lemma FlagIsRecord(c: Config, boot: Boot, es: seq<Event>, i: Id)
    requires Serves(c, Start(c, boot), es) && i in Exec(c, Start(c, boot), es).queues
    ensures var q := Exec(c, Start(c, boot), es).queues[i];
      q.flags.fenced == q.fence.fenced && (q.lifecycle.Draining? ==> q.drain.InProgress())
  {
    hide Step, Inv, Start;
    StartInv(c, boot);
    ExecInv(c, Start(c, boot), es);
    InvCoherent(c, Exec(c, Start(c, boot), es), i);
  }

  ghost predicate UnfencedFrom(c: Config, s: State, es: seq<Event>, m: nat, i: Id) {
    exists k :: m <= k < |es| && Unfences(Exec(c, s, es[..k]), es[k], Step(c, Exec(c, s, es[..k]), es[k]), i)
  }

  /** While a queue is fenced nothing changes its definition, lifecycle, drain or
      acknowledgement, and only an unfence ends it. */
  lemma {:induction false} FenceHolds(c: Config, s: State, es: seq<Event>, m: nat, i: Id)
    requires Inv(c, s) && OneLife(es) && m <= |es|
    requires i in Exec(c, s, es[..m]).queues && Exec(c, s, es[..m]).queues[i].flags.fenced && !UnfencedFrom(c, s, es, m, i)
    ensures i in Exec(c, s, es).queues
    ensures var q, next := Exec(c, s, es[..m]).queues[i], Exec(c, s, es).queues[i];
      SameGoverned(q, next) && next.flags.fenced && next.fence == q.fence
  {
    hide Step, Inv, Unfences;
    if m == |es| {
      assert es[..m] == es;
    } else {
      var n := |es| - 1;
      var before := es[..n];
      assert before[..m] == es[..m];
      assert forall k | m <= k < n :: before[..k] == es[..k];
      FenceHolds(c, s, before, m, i);
      OneLifeServes(c, s, before);
      ExecInv(c, s, before);
      StepGoverned(c, Exec(c, s, before), es[n], i);
    }
  }
}
