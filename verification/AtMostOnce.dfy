/** Within one process life every effect uses up its own place in its sender's
    sequence. */
module AtMostOnce {
  import opened Status
  import opened Entities
  import opened Work
  import opened Machine
  import opened Recovery
  import opened Run
  import opened Steps
  import opened Provenances
  import opened Tracking
  import opened Generations

  // ---- one call -------------------------------------------------------------

  /** Whose sequence an event would advance. */
  function SenderOf(e: Event): Option<Provenance> {
    match e
    case Mutate(r, _, _) => Some(r.provenance)
    case PlanApply(_, _, _, sender, _, _) => Some(sender)
    case CommitApply(_, _, sender, _, _) => Some(sender)
    case _ => None
  }

  /** The event's sender was accepted and its place is used up. */
  predicate Consumes(s: State, e: Event, next: State) {
    && SenderOf(e).Some? && Classify(s.publishers, SenderOf(e).value, MAX_PUBLISHERS).Accepted?
    && next.publishers == Observe(s.publishers, SenderOf(e).value)
  }

  predicate Hears(s: State, e: Event, reply: Reply) {
    || Consumes(s, e, reply.state)
    || (reply.state.publishers == s.publishers && !(SenderOf(e).Some? && reply.verdict.Took?))
  }

  lemma PublishHears(c: Config, s: State, id: Id, edit: Edit, queues: map<Id, Queue>, clock: int, io: Io)
    ensures Publish(c, s, id, edit, queues, clock, io).state.publishers == s.publishers
  {
    hide Persist, StillHealthy;
  }

  lemma TopologyHears(c: Config, s: State, e: Event)
    requires e.GrantTo? || e.NewClass? || e.NewPool? || e.BackendDied?
    ensures Step(c, s, e).state.publishers == s.publishers
  {
    hide Apply, DeclareResource, AddBackend, AdvanceEpoch, InvalidateEvidence, Refresh, Explain, Reserve, CommitPlan, AbortPlan, Compact,
      Shutdown, Recover, Publish, GrantEdit, ClassEdit, PoolEdit, DeathEdit, Unbound, NextClass, Registrars;
    assert Unfold(c, s, e);
    forall d: Config, id, edit, queues, clock, io ensures Publish(d, s, id, edit, queues, clock, io).state.publishers == s.publishers {
      PublishHears(d, s, id, edit, queues, clock, io);
    }
  }

  lemma QuietHears(c: Config, s: State, e: Event)
    requires e.NewResource? || e.NewBackend? || e.NewEpoch? || e.Discredit? || e.RefreshAll? || e.ExplainOne? || e.AbortApply? || e.CompactJournal? || e.Stop?
    ensures Step(c, s, e).state.publishers == s.publishers
  {
    hide Apply, GrantCapabilities, DeclareClass, DeclarePool, MarkDead, Reserve, CommitPlan, Recover, Persist, StillHealthy, CheckNewResource,
      CheckBackend, CheckAdvance, CheckInvalidation, Refreshed, Superseded, Discredited, Snapshot, InEpoch, WithBackend;
    assert Unfold(c, s, e);
  }

  lemma ReserveHears(c: Config, s: State, e: Event)
    requires e.PlanApply?
    ensures Hears(s, e, Reserve(c, s, e.queue, e.expected, e.principal, e.sender, e.clock, e.io))
  {
    hide Persist, StillHealthy, NewPlan, Classify, Observe, CheckReservation;
    var reply := Reserve(c, s, e.queue, e.expected, e.principal, e.sender, e.clock, e.io);
    if CheckReservation(c, s, e.queue, e.expected, e.principal, e.sender).Ok? {
      ReservedWasHeard(c, s, e.queue, e.expected, e.principal, e.sender);
    }
  }

  lemma ReservedWasHeard(c: Config, s: State, queue: Id, expected: nat, principal: Id, sender: Provenance)
    requires CheckReservation(c, s, queue, expected, principal, sender).Ok?
    ensures queue in s.queues && Classify(s.publishers, sender, MAX_PUBLISHERS).Accepted?
  {
    hide Classify, CheckBinding;
  }

  lemma CommitHears(c: Config, s: State, e: Event)
    requires e.CommitApply?
    ensures Hears(s, e, CommitPlan(c, s, e.plan, e.applied, e.sender, e.clock, e.io))
  {
    hide Persist, StillHealthy, ApplyExisting, CheckPlan, Classify, Observe, Journalled, Score;
    var r := AckRequest(e.plan, e.applied, s.epoch, e.sender);
    var w := Persist(c, s.journal, CommitMutation(r), e.io);
    if CheckPlan(s, e.plan, e.sender).Ok? {
      assert e.plan.queue in s.queues by {
        CheckedPlanQueue(s, e.plan, e.sender);
      }
      ExistingRest(c, s.(journal := w.journal), Later(s.watermark, e.clock), r, e.io, false);
    }
  }

  lemma CheckedPlanQueue(s: State, plan: Plan, sender: Provenance)
    requires CheckPlan(s, plan, sender).Ok?
    ensures plan.queue in s.queues
  {
  }

  lemma MutateHears(c: Config, s: State, e: Event)
    requires e.Mutate?
    ensures Hears(s, e, Apply(c, s, e.request, e.clock, e.io, false))
  {
    hide Apply, Journalled, Classify, Observe, SameButCount;
    ApplyRest(c, s, e.request, e.clock, e.io, false);
  }

  lemma StepHears(c: Config, s: State, e: Event)
    requires !e.Restart?
    ensures Hears(s, e, Step(c, s, e))
  {
    hide Step, Classify, Observe;
    if SenderOf(e).None? {
      if e.GrantTo? || e.NewClass? || e.NewPool? || e.BackendDied? {
        TopologyHears(c, s, e);
      } else {
        QuietHears(c, s, e);
      }
    } else {
      SenderHears(c, s, e);
    }
  }

  lemma SenderHears(c: Config, s: State, e: Event)
    requires SenderOf(e).Some?
    ensures Hears(s, e, Step(c, s, e))
  {
    hide Hears, Apply, Reserve, CommitPlan, DeclareResource, GrantCapabilities, DeclareClass, DeclarePool, AddBackend, MarkDead, AdvanceEpoch,
      InvalidateEvidence, Refresh, Explain, AbortPlan, Compact, Shutdown, Recover;
    assert Unfold(c, s, e);
    match e
    case Mutate(_, _, _) => MutateHears(c, s, e);
    case PlanApply(_, _, _, _, _, _) => ReserveHears(c, s, e);
    case CommitApply(_, _, _, _, _) => CommitHears(c, s, e);
  }

  // ---- one life -------------------------------------------------------------

  /** The k-th event of the run used up a place in its sender's sequence. */
  ghost predicate ConsumesAt(c: Config, s: State, es: seq<Event>, k: nat)
    requires k < |es|
  {
    Consumes(Exec(c, s, es[..k]), es[k], Exec(c, s, es[..k + 1]))
  }

  lemma CoversOn(c: Config, s: State, e: Event, p: Provenance)
    requires !e.Restart? && Covers(s.publishers, p)
    ensures Covers(Step(c, s, e).state.publishers, p)
  {
    hide Step, Covers, Classify, Observe;
    StepHears(c, s, e);
    if Consumes(s, e, Step(c, s, e).state) {
      ObserveCovers(s.publishers, p, SenderOf(e).value);
    }
  }

  lemma {:induction false} StaysCovered(c: Config, s: State, es: seq<Event>, m: nat, p: Provenance)
    requires OneLife(es) && m <= |es| && Covers(Exec(c, s, es[..m]).publishers, p)
    ensures Covers(Exec(c, s, es).publishers, p)
  {
    hide Step, Covers;
    if m == |es| {
      assert es[..m] == es;
    } else {
      var n := |es| - 1;
      assert es[..n][..m] == es[..m];
      StaysCovered(c, s, es[..n], m, p);
      CoversOn(c, Exec(c, s, es[..n]), es[n], p);
    }
  }

  /** Accepted places of one publisher strictly increase, incarnation first, with
      one boot per incarnation. */
  lemma SequencesIncrease(c: Config, s: State, es: seq<Event>, k: nat, l: nat)
    requires OneLife(es) && k < l < |es| && ConsumesAt(c, s, es, k) && ConsumesAt(c, s, es, l)
    requires SenderOf(es[k]).value.publisher == SenderOf(es[l]).value.publisher
    ensures Precedes(SenderOf(es[k]).value, SenderOf(es[l]).value)
  {
    hide Step, Exec, Covers, Classify, Observe, Precedes;
    var p, q := SenderOf(es[k]).value, SenderOf(es[l]).value;
    ObserveCovers(Exec(c, s, es[..k]).publishers, p, p);
    assert es[..l][..k + 1] == es[..k + 1];
    StaysCovered(c, s, es[..l], k + 1, p);
    ObserveCovers(Exec(c, s, es[..l]).publishers, p, q);
  }

  /** The k-th event took effect: it declared, mutated, reserved or acknowledged. */
  ghost predicate EffectAt(c: Config, s: State, es: seq<Event>, k: nat)
    requires k < |es|
  {
    SenderOf(es[k]).Some? && Step(c, Exec(c, s, es[..k]), es[k]).verdict.Took?
  }

  /** Every effect uses up its own publisher, incarnation and sequence. */
  lemma EffectsConsume(c: Config, s: State, es: seq<Event>, k: nat)
    requires OneLife(es) && k < |es| && EffectAt(c, s, es, k)
    ensures ConsumesAt(c, s, es, k)
  {
    hide Step, Consumes;
    StepHears(c, Exec(c, s, es[..k]), es[k]);
    assert es[..k + 1][..k] == es[..k];
  }

  /** No two effects of one life share publisher, incarnation and sequence. */
  lemma EffectsAreDistinct(c: Config, s: State, es: seq<Event>, k: nat, l: nat)
    requires OneLife(es) && k < l < |es| && EffectAt(c, s, es, k) && EffectAt(c, s, es, l)
    ensures var p, q := SenderOf(es[k]).value, SenderOf(es[l]).value;
      p.publisher != q.publisher || Precedes(p, q)
  {
    hide Step, Consumes, Precedes, Exec;
    EffectsConsume(c, s, es, k);
    EffectsConsume(c, s, es, l);
    if SenderOf(es[k]).value.publisher == SenderOf(es[l]).value.publisher {
      SequencesIncrease(c, s, es, k, l);
    }
  }

  /** The publisher table never outgrows its bound. */
  lemma {:induction false} TableBounded(c: Config, s: State, es: seq<Event>)
    requires OneLife(es) && |s.publishers| <= MAX_PUBLISHERS
    ensures |Exec(c, s, es).publishers| <= MAX_PUBLISHERS
  {
    hide Step, Classify, Observe;
    if es != [] {
      var n := |es| - 1;
      TableBounded(c, s, es[..n]);
      var before := Exec(c, s, es[..n]);
      StepHears(c, before, es[n]);
      if Consumes(before, es[n], Step(c, before, es[n]).state) {
        ObserveCovers(before.publishers, SenderOf(es[n]).value, SenderOf(es[n]).value);
      }
    }
  }

  /** A new life starts with an empty table: boots and incarnations of earlier
      lives are not remembered. */
  lemma FreshTable(c: Config, s: State, e: Event)
    requires e.Restart? && Step(c, s, e).verdict.Took?
    ensures Step(c, s, e).state.publishers == map[]
  {
    hide Load, Apply, Announce, Rebuild, Survivor, Replay, Distrust;
    assert Unfold(c, s, e);
    if c.hasJournal {
      var j := Survivor(s.journal, e.keep);
      var l := Load(j.records, j.headerEpoch);
      BaseTable(l, j, e.boot);
      ReplayTable(c, Base(l, j, e.boot), l.order, e.feed);
      AfterReplayTable(Replay(c, Base(l, j, e.boot), l.order, e.feed), l.outstanding);
    }
  }

  lemma BaseTable(l: Loaded, j: Journal, boot: Boot)
    ensures Base(l, j, boot).publishers == map[]
  {
    hide FreshIds, NamesOf, WithCount, Adopted;
  }

  lemma AfterReplayTable(s: State, outstanding: map<Attempt, Request>)
    ensures Announce(Rebuild(Distrust(s, outstanding))).publishers == s.publishers
  {
    hide FreshIds, NamesOf, WithCount, Distrusted;
  }

  lemma {:induction false} ReplayTable(c: Config, s: State, order: seq<Request>, feed: seq<Moment>)
    ensures Replay(c, s, order, feed).publishers == s.publishers
  {
    hide Apply, Journalled, SameButCount;
    if order != [] {
      var n := |order| - 1;
      ReplayTable(c, s, order[..n], feed);
      ApplyRest(c, Replay(c, s, order[..n], feed), order[n], MomentAt(feed, n).clock, MomentAt(feed, n).io, true);
    }
  }
}
