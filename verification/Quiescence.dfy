/** A queue is quiesced only on evidence. */
module Quiescence {
  import opened Status
  import opened Entities
  import opened Mutations
  import opened Work
  import opened Machine
  import opened Evolution
  import opened Recovery
  import opened Run
  import opened Steps
  import opened Reach
  import opened Backends
  import opened Occupancies
  import Acks
  import Soundness
  import Deltas
  import Drains
  import Laws
  import Lifecycles

  // ---- what counts as evidence ----------------------------------------------

  /** The drain evidence names a live backend incarnation at the current epoch
      that accepted the request and reported the queue drained. */
  predicate BackendAttests(q: Queue, env: Env) {
    var ev := q.drain.evidence;
    && ev.revalidated && ev.records >= 1 && ev.backend.accepted && ev.backend.drained && ev.backend.epoch == env.epoch
    && var live := FindLive(env.resource.backends, ev.backend.backend);
      live.Some? && live.value.alive && live.value.id == ev.backend.backend && live.value.incarnation == ev.backend.incarnation
  }

  /** The stored occupancy is fresh, zero, in its window and not older than the
      drain request. */
  predicate ObservedEmpty(c: Config, q: Queue, now: int) {
    var o, p := q.occupancy, QueuePolicy(c, q.def);
    && q.drain.evidence.zeroObserved
    && o.present && o.freshness.Fresh? && o.bytes == 0 && o.packets == 0 && o.observedAt >= q.drain.requestedAt
    && (p.maxAge > 0 ==> AgeAt(now, o.observedAt) <= p.maxAge)
  }

  /** The backend that attests the drain also verifies the stored acknowledgement. */
  predicate AckVerified(q: Queue, env: Env) {
    var live := FindLive(env.resource.backends, q.drain.evidence.backend.backend);
    live.Some? && Verify(q.applied, live.value, env.epoch, q.def.generation, q.def.cls).Ok?
  }

  predicate Evidenced(c: Config, q: Queue, env: Env) {
    && q.lifecycle.Draining? && q.drain.InProgress()
    && BackendAttests(q, env) && ObservedEmpty(c, q, env.now)
    && (c.policy.requireAck ==> AckVerified(q, env))
  }

  /** Because a draining queue has a drain in progress, the assessment's
      already-complete shortcut never grants quiescence. */
  lemma PerformQuiesces(c: Config, env: Env, q: Queue, r: Request)
    requires PayloadMatches(r.kind, r.payload) && (q.lifecycle.Draining? ==> q.drain.InProgress())
    ensures var w := Perform(c, env, q, r);
      w.Done? && !q.lifecycle.Quiesced? && w.queue.lifecycle.Quiesced? ==> r.kind.QuiesceQueue? && Evidenced(c, q, env)
  {
    hide CheckBinding, FindLive, Verify, QueuePolicy, SameLife, Bounded, NoteZero, Invalidate, Drains.Assess;
    if q.drain.InProgress() {
      var live := FindLive(env.resource.backends, q.drain.evidence.backend.backend);
      Laws.AssessmentIsExact(q.drain, q.occupancy, live, env.epoch, QueuePolicy(c, q.def), env.now);
    }
  }

  // ---- one mutation ---------------------------------------------------------

  /** The same claim about the drain, up to the observation of emptiness. */
  predicate SameClaim(d: Drain, next: Drain) {
    && next.phase == d.phase && next.evidence.backend == d.evidence.backend
    && next.evidence.records == d.evidence.records && next.evidence.revalidated == d.evidence.revalidated
  }

  /** The drain rests on evidence that could complete it. */
  predicate Claims(d: Drain) {
    d.InProgress() && d.evidence.records > 0 && d.evidence.revalidated
  }

  predicate DrainStep(q: Queue, r: Request, next: Queue) {
    && (Claims(next.drain) ==>
      || (r.kind.SubmitDrainEvidence? && r.payload.EvidencePayload? && next.drain.evidence == r.payload.evidence.(revalidated := true))
      || (SameClaim(q.drain, next.drain) && !(r.kind.RequestDrain? && !q.lifecycle.Draining?)))
    && (next.lifecycle.Quiesced? ==> q.lifecycle.Quiesced? || r.kind.QuiesceQueue?)
  }

  lemma PerformDrainStep(c: Config, env: Env, q: Queue, r: Request)
    requires PayloadMatches(r.kind, r.payload)
    ensures var w := Perform(c, env, q, r); w.Done? ==> DrainStep(q, r, w.queue)
  {
    hide CheckBinding, FindLive, Verify, Drains.Assess, QueuePolicy, SameLife, Bounded, Invalidate, AgeAt, Lifecycles.CheckTransition;
  }

  lemma KeptDrain(c: Config, r: Request, q: Queue, next: Queue)
    requires Kept(c, r, q, next)
    ensures next.drain == q.drain && next.lifecycle == q.lifecycle && next.def == q.def
  {
    hide MemoGrows;
  }

  lemma WorkedDrain(c: Config, s: State, now: int, q: Queue, r: Request, replaying: bool, next: Queue)
    requires Soundness.Coherent(q) && Worked(c, s, now, q, r, replaying, next)
    ensures DrainStep(q, r, next) && next.def.id == q.def.id
    ensures q.def.resource in s.resources
    ensures !q.lifecycle.Quiesced? && next.lifecycle.Quiesced? ==> Evidenced(c, q, EnvAt(s, q, now))
  {
    hide Perform, Admitted, Remembered, PayloadMatches, Durable, Kept, Evidenced, Claims, SameClaim;
    Soundness.AdmittedResource(c, s, q, r, replaying);
    var env := EnvAt(s, q, now);
    PerformDrainStep(c, env, q, r);
    PerformQuiesces(c, env, q, r);
    Soundness.PerformKeepsId(c, env, q, r);
    var w := Perform(c, env, q, r);
    RememberedKept(c, w.queue, r, Ok, Durable(r.kind) && c.hasJournal);
    KeptDrain(c, r, w.queue, next);
  }

  lemma InstalledDrain(c: Config, s: State, r: Request, replaying: bool, reply: Reply, i: Id)
    requires Installed(c, s, r, replaying, reply, i)
    ensures !Claims(reply.state.queues[i].drain) && reply.state.queues[i].lifecycle.Declared?
  {
    hide CheckDeclaration, Check, Remembered, Kept;
    var q := NewQueue(r, i, reply.state.watermark);
    RememberedKept(c, q, r, Ok, c.hasJournal);
    KeptDrain(c, r, q, reply.state.queues[i]);
  }

  lemma MarkedDrain(c: Config, s: State, e: Event, next: State, i: Id)
    requires i in s.queues && Marked(c, s, e, next, i)
    ensures i in next.queues && next.queues[i].drain == s.queues[i].drain && next.queues[i].lifecycle == s.queues[i].lifecycle
  {
    hide NextClass, QueuePolicy, Classify, Invalidate;
  }

  // ---- one call -------------------------------------------------------------

  /** The step took evidence for the drain of queue i. */
  predicate Submits(s: State, e: Event, reply: Reply, i: Id, ev: Evidence) {
    && reply.verdict.Took? && RequestOf(s, e).Some? && RequestOf(s, e).value.queue == i
    && RequestOf(s, e).value.kind.SubmitDrainEvidence? && RequestOf(s, e).value.payload.EvidencePayload?
    && var given := RequestOf(s, e).value.payload.evidence; given.backend == ev.backend && given.records == ev.records
  }

  /** The step began a new drain of queue i. */
  predicate Requests(s: State, e: Event, reply: Reply, i: Id) {
    && reply.verdict.Took? && RequestOf(s, e).Some? && RequestOf(s, e).value.queue == i
    && RequestOf(s, e).value.kind.RequestDrain? && i in s.queues && !s.queues[i].lifecycle.Draining?
  }

  /** After the step, a claim was just submitted or stood before and no new drain
      was begun. */
  predicate ClaimStep(s: State, e: Event, reply: Reply, i: Id)
    requires i in reply.state.queues
  {
    var next := reply.state.queues[i].drain;
    Claims(next) ==>
      || Submits(s, e, reply, i, next.evidence)
      || (i in s.queues && SameClaim(s.queues[i].drain, next) && !Requests(s, e, reply, i))
  }

  predicate QuiesceStep(c: Config, s: State, reply: Reply, i: Id)
    requires i in reply.state.queues
  {
    reply.state.queues[i].lifecycle.Quiesced? ==>
      && i in s.queues
      && (s.queues[i].lifecycle.Quiesced? ||
          (s.queues[i].def.resource in s.resources && Evidenced(c, s.queues[i], EnvAt(s, s.queues[i], reply.state.watermark))))
  }

  lemma HandledDrain(c: Config, s: State, r: Request, reply: Reply, i: Id)
    requires i in s.queues && Soundness.Coherent(s.queues[i]) && Handled(c, s, r, false, reply, i)
    ensures i in reply.state.queues && QuiesceStep(c, s, reply, i)
    ensures var q, next := s.queues[i], reply.state.queues[i];
      if reply.verdict.Took? && r.queue == i && !r.kind.DeclareQueue? then DrainStep(q, r, next) else next.drain == q.drain
  {
    hide Worked, Kept, Evidenced, DrainStep, Soundness.Coherent;
    if reply.verdict.Took? && r.queue == i && !r.kind.DeclareQueue? {
      WorkedDrain(c, s, reply.state.watermark, s.queues[i], r, false, reply.state.queues[i]);
    } else {
      KeptDrain(c, r, s.queues[i], reply.state.queues[i]);
    }
  }

  lemma QueueDrainStep(c: Config, s: State, e: Event, reply: Reply, i: Id)
    requires AllSound(c, s) && QueueSteps(c, s, e, reply) && i in reply.state.queues
    ensures ClaimStep(s, e, reply, i) && QuiesceStep(c, s, reply, i)
  {
    hide Handled, Marked, HasTarget, Installed, Evidenced, Soundness.WithinBounds, Soundness.Dated, Soundness.Coherent, Claims;
    if i in s.queues {
      assert QueueStep(c, s, e, reply, i);
      if RequestOf(s, e).Some? {
        HandledDrain(c, s, RequestOf(s, e).value, reply, i);
      } else {
        MarkedDrain(c, s, e, reply.state, i);
      }
    } else {
      InstalledDrain(c, s, e.request, false, reply, i);
    }
  }

  lemma StepDrains(c: Config, s: State, e: Event, i: Id)
    requires Inv(c, s) && !e.Restart? && i in Step(c, s, e).state.queues
    ensures ClaimStep(s, e, Step(c, s, e), i) && QuiesceStep(c, s, Step(c, s, e), i)
  {
    hide Step, QueueSteps, ResourceSteps, CoreStep, JournalStep, Counted, AllSound, EpochsAgree, EpochStored, RecordsSound,
      ClaimStep, QuiesceStep;
    Deltas.StepDelta(c, s, e);
    QueueDrainStep(c, s, e, Step(c, s, e), i);
  }

  // ---- recovery -------------------------------------------------------------

  /** No drain rests on evidence that could complete it. */
  predicate NoClaims(queues: map<Id, Queue>) {
    forall i :: i in queues ==> !Claims(queues[i].drain)
  }

  predicate SubmitsNothing(order: seq<Request>) {
    forall k :: 0 <= k < |order| ==> !order[k].kind.SubmitDrainEvidence?
  }

  lemma {:induction false} LoadNoClaims(records: seq<Record>, header: nat)
    ensures NoClaims(Load(records, header).queues)
  {
    hide StorableQueue, StorableResource, Decodable;
    if records != [] {
      LoadNoClaims(records[..|records| - 1], header);
    }
  }

  /** Every quiesced queue after replay was quiesced when replay started. */
  predicate QuiescedFrom(first: map<Id, Queue>, queues: map<Id, Queue>) {
    forall i :: i in queues && queues[i].lifecycle.Quiesced? ==> i in first && first[i].lifecycle.Quiesced?
  }

  lemma ApplyNoClaims(c: Config, s: State, r: Request, m: Moment, epoch: nat, first: map<Id, Queue>)
    requires Replayable(c, s, epoch) && NoClaims(s.queues) && !r.kind.SubmitDrainEvidence? && QuiescedFrom(first, s.queues)
    ensures var next := Apply(c, s, r, m.clock, m.io, true).state; NoClaims(next.queues) && QuiescedFrom(first, next.queues)
  {
    hide Apply, Handled, Installed, HasTarget, Claims, EpochsAgree, RecordsSound;
    var reply := Apply(c, s, r, m.clock, m.io, true);
    ApplyQueues(c, s, r, m.clock, m.io, true);
    forall i | i in reply.state.queues
      ensures !Claims(reply.state.queues[i].drain)
      ensures reply.state.queues[i].lifecycle.Quiesced? ==> i in s.queues && s.queues[i].lifecycle.Quiesced?
    {
      if i in s.queues {
        HandledNoClaim(c, s, r, reply, i, epoch);
      } else {
        InstalledDrain(c, s, r, true, reply, i);
      }
    }
  }

  /** Without a claim a replayed quiesce is refused. */
  lemma HandledNoClaim(c: Config, s: State, r: Request, reply: Reply, i: Id, epoch: nat)
    requires AllSound(c, s) && i in s.queues && !Claims(s.queues[i].drain) && !r.kind.SubmitDrainEvidence?
    requires Handled(c, s, r, true, reply, i)
    ensures i in reply.state.queues && !Claims(reply.state.queues[i].drain)
    ensures reply.state.queues[i].lifecycle.Quiesced? ==> s.queues[i].lifecycle.Quiesced?
  {
    hide Worked, Kept, FindLive, Verify, QueuePolicy, Soundness.WithinBounds, Soundness.Dated;
    if reply.verdict.Took? && r.queue == i && !r.kind.DeclareQueue? {
      WorkedDrain(c, s, reply.state.watermark, s.queues[i], r, true, reply.state.queues[i]);
    } else {
      KeptDrain(c, r, s.queues[i], reply.state.queues[i]);
    }
  }

  lemma {:induction false} ReplayNoClaims(c: Config, s: State, order: seq<Request>, feed: seq<Moment>, epoch: nat)
    requires Replayable(c, s, epoch) && NoClaims(s.queues) && SubmitsNothing(order)
    ensures var next := Replay(c, s, order, feed); NoClaims(next.queues) && QuiescedFrom(s.queues, next.queues)
  {
    hide Replayable, Apply, NoClaims;
    if order != [] {
      var n := |order| - 1;
      var before := Replay(c, s, order[..n], feed);
      ReplayNoClaims(c, s, order[..n], feed, epoch);
      ReplayReplayable(c, s, order[..n], feed, epoch);
      ApplyNoClaims(c, before, order[n], MomentAt(feed, n), epoch, s.queues);
    }
  }

  lemma DistrustNoClaims(s: State, outstanding: map<Attempt, Request>)
    requires NoClaims(s.queues)
    ensures NoClaims(Distrust(s, outstanding).queues) && QuiescedFrom(s.queues, Distrust(s, outstanding).queues)
  {
    hide Orphaned, Invalidate;
  }

  /** A recovered fabric rests no drain on old evidence and quiesces nothing that
      its journal did not hold quiesced. */
  lemma RecoverNoClaims(c: Config, j: Journal, boot: Boot, feed: seq<Moment>, clock: int)
    requires c.hasJournal && Recover(c, j, boot, feed, clock).verdict.Took?
    requires RecordsSound(c, j.records, Load(j.records, j.headerEpoch).epoch)
    ensures var next := Recover(c, j, boot, feed, clock).state;
      NoClaims(next.queues) && QuiescedFrom(Load(j.records, j.headerEpoch).queues, next.queues)
  {
    hide RecordsSound, LoadedSound, Replayable, Load, Base, Replay, Distrust, Rebuild, NoClaims;
    var l := Load(j.records, j.headerEpoch);
    var epoch := NextEpoch(l.epoch);
    RecordsSoundLater(c, j.records, l.epoch, epoch);
    LoadSound(c, j.records, j.headerEpoch, epoch);
    LoadNoClaims(j.records, j.headerEpoch);
    BaseReplayable(c, l, j, boot);
    BaseQueues(l, j, boot);
    LoadedSubmitsNothing(c, l, epoch);
    var base := Base(l, j, boot);
    ReplayNoClaims(c, base, l.order, feed, epoch);
    var replayed := Replay(c, base, l.order, feed);
    DistrustNoClaims(replayed, l.outstanding);
    RebuildRest(Distrust(replayed, l.outstanding));
  }

  lemma BaseQueues(l: Loaded, j: Journal, boot: Boot)
    ensures Base(l, j, boot).queues == l.queues
  {
    hide FreshIds, NamesOf, WithCount, Adopted;
  }

  lemma LoadedSubmitsNothing(c: Config, l: Loaded, epoch: nat)
    requires LoadedSound(c, l, epoch)
    ensures SubmitsNothing(l.order)
  {
    hide Soundness.Sound;
  }

  // ---- runs: where evidence comes from --------------------------------------

  ghost predicate SubmitsAt(c: Config, s: State, es: seq<Event>, k: nat, i: Id, ev: Evidence)
    requires k < |es|
  {
    Submits(Exec(c, s, es[..k]), es[k], Step(c, Exec(c, s, es[..k]), es[k]), i, ev)
  }

  ghost predicate RequestsAt(c: Config, s: State, es: seq<Event>, k: nat, i: Id)
    requires k < |es|
  {
    Requests(Exec(c, s, es[..k]), es[k], Step(c, Exec(c, s, es[..k]), es[k]), i)
  }

  /** The evidence was submitted at the k-th event, and since then the process
      was not restarted and no new drain of the queue was begun. */
  ghost predicate SubmittedAt(c: Config, s: State, es: seq<Event>, k: nat, i: Id, ev: Evidence) {
    && k < |es| && SubmitsAt(c, s, es, k, i, ev)
    && forall j :: k < j < |es| ==> !es[j].Restart? && !RequestsAt(c, s, es, j, i)
  }

  ghost predicate SubmittedSince(c: Config, s: State, es: seq<Event>, i: Id, ev: Evidence) {
    exists k: nat :: SubmittedAt(c, s, es, k, i, ev)
  }

  ghost predicate ClaimsBacked(c: Config, s: State, es: seq<Event>) {
    forall i :: i in Exec(c, s, es).queues && Claims(Exec(c, s, es).queues[i].drain) ==>
      SubmittedSince(c, s, es, i, Exec(c, s, es).queues[i].drain.evidence)
  }

  lemma JustSubmitted(c: Config, s: State, es: seq<Event>, i: Id, ev: Evidence)
    requires es != []
    requires Submits(Exec(c, s, es[..|es| - 1]), es[|es| - 1], Step(c, Exec(c, s, es[..|es| - 1]), es[|es| - 1]), i, ev)
    ensures SubmittedSince(c, s, es, i, ev)
  {
    hide Step, Exec, Submits, Requests;
    assert SubmittedAt(c, s, es, |es| - 1, i, ev);
  }

  lemma StillSubmitted(c: Config, s: State, es: seq<Event>, i: Id, ev: Evidence, now: Evidence)
    requires es != [] && !es[|es| - 1].Restart? && now.backend == ev.backend && now.records == ev.records
    requires SubmittedSince(c, s, es[..|es| - 1], i, ev)
    requires !Requests(Exec(c, s, es[..|es| - 1]), es[|es| - 1], Step(c, Exec(c, s, es[..|es| - 1]), es[|es| - 1]), i)
    ensures SubmittedSince(c, s, es, i, now)
  {
    hide Step, Exec, Requests;
    var n := |es| - 1;
    var before := es[..n];
    var k: nat :| SubmittedAt(c, s, before, k, i, ev);
    assert forall j | k <= j < n :: before[..j] == es[..j];
    forall j | k < j < |es| ensures !es[j].Restart? && !RequestsAt(c, s, es, j, i) {
      if j < n {
        assert !RequestsAt(c, s, before, j, i) && before[j] == es[j];
      }
    }
    assert SubmittedAt(c, s, es, k, i, now);
  }

  lemma StartEmpty(c: Config, boot: Boot)
    ensures Start(c, boot).queues == map[]
  {
    hide Rebuild, Apply, Orphaned, FreshIds, NamesOf, WithCount;
    if c.hasJournal {
      var l := Load([], 0);
      var j := Journal([], 0, 0);
      BaseQueues(l, j, boot);
      RebuildRest(Distrust(Base(l, j, boot), l.outstanding));
    }
  }

  lemma RestartNoClaims(c: Config, s: State, e: Event)
    requires Inv(c, s) && e.Restart? && Step(c, s, e).verdict.Took?
    ensures NoClaims(Step(c, s, e).state.queues)
    ensures c.hasJournal ==> QuiescedFrom(Load(Survivor(s.journal, e.keep).records, s.journal.headerEpoch).queues, Step(c, s, e).state.queues)
    ensures !c.hasJournal ==> Step(c, s, e).state.queues == map[]
  {
    hide RecordsSound, Load, Base, Replay, Distrust, Rebuild, Announce, Apply, NoClaims, QuiescedFrom, Inv;
    assert Unfold(c, s, e);
    if c.hasJournal {
      SurvivorSound(c, s, e.keep);
      RecoverNoClaims(c, Survivor(s.journal, e.keep), e.boot, e.feed, e.clock);
    } else {
      assert NoClaims(map[]) by {
        EmptyNoClaims();
      }
    }
  }

  lemma EmptyNoClaims()
    ensures NoClaims(map[])
  {
  }

  lemma {:induction false} EvidenceHasSource(c: Config, s: State, es: seq<Event>)
    requires Inv(c, s) && s.queues == map[] && Serves(c, s, es)
    ensures ClaimsBacked(c, s, es)
  {
    hide Step, Inv, Claims, SubmittedSince, Submits, Requests;
    if es != [] {
      var n := |es| - 1;
      var before := Exec(c, s, es[..n]);
      EvidenceHasSource(c, s, es[..n]);
      ExecInv(c, s, es[..n]);
      var reply := Step(c, before, es[n]);
      forall i | i in reply.state.queues && Claims(reply.state.queues[i].drain)
        ensures SubmittedSince(c, s, es, i, reply.state.queues[i].drain.evidence)
      {
        if es[n].Restart? {
          RestartNoClaims(c, before, es[n]);
          assert false;
        } else {
          StepDrains(c, before, es[n], i);
          if Submits(before, es[n], reply, i, reply.state.queues[i].drain.evidence) {
            JustSubmitted(c, s, es, i, reply.state.queues[i].drain.evidence);
          } else {
            SameClaimClaims(before.queues[i].drain, reply.state.queues[i].drain);
            StillSubmitted(c, s, es, i, before.queues[i].drain.evidence, reply.state.queues[i].drain.evidence);
          }
        }
      }
    }
  }

  lemma SameClaimClaims(d: Drain, next: Drain)
    requires SameClaim(d, next) && Claims(next)
    ensures Claims(d)
  {
  }

  /** Queue i becomes quiesced in the last event of the run, by a live call. */
  ghost predicate BecomesQuiesced(c: Config, s: State, es: seq<Event>, i: Id) {
    && es != [] && !es[|es| - 1].Restart?
    && i in Exec(c, s, es).queues && Exec(c, s, es).queues[i].lifecycle.Quiesced?
    && !(i in Exec(c, s, es[..|es| - 1]).queues && Exec(c, s, es[..|es| - 1]).queues[i].lifecycle.Quiesced?)
  }

  /** In every run a live step to quiesced has its evidence: a live backend
      incarnation attests the drain at the current epoch, occupancy was observed
      empty since the drain was requested, policy's acknowledgement verifies, and
      the evidence was submitted after the latest drain request in this very
      process life. */
  lemma QuiescenceIsEvidenced(c: Config, boot: Boot, es: seq<Event>, i: Id)
    requires Serves(c, Start(c, boot), es) && BecomesQuiesced(c, Start(c, boot), es, i)
    ensures var s, now := Exec(c, Start(c, boot), es[..|es| - 1]), Exec(c, Start(c, boot), es).watermark;
      && i in s.queues && s.queues[i].def.resource in s.resources
      && Evidenced(c, s.queues[i], EnvAt(s, s.queues[i], now))
      && (c.policy.requireAck ==> Acks.Verifies(s, i))
      && SubmittedSince(c, Start(c, boot), es[..|es| - 1], i, s.queues[i].drain.evidence)
  {
    hide Step, Inv, Start, SubmittedSince, Acks.Verifies, BackendAttests, ObservedEmpty, AckVerified;
    var first := Start(c, boot);
    StartInv(c, boot);
    StartEmpty(c, boot);
    ExecInv(c, first, es[..|es| - 1]);
    EvidenceHasSource(c, first, es[..|es| - 1]);
    var s := Exec(c, first, es[..|es| - 1]);
    StepDrains(c, s, es[|es| - 1], i);
    EvidencedClaims(c, s, i, Exec(c, first, es).watermark);
  }

  lemma EvidencedClaims(c: Config, s: State, i: Id, now: int)
    requires i in s.queues && s.queues[i].def.resource in s.resources && Evidenced(c, s.queues[i], EnvAt(s, s.queues[i], now))
    ensures Claims(s.queues[i].drain)
    ensures c.policy.requireAck ==> Acks.Verifies(s, i)
  {
    hide FindLive, Verify, Acks.Verifies, ObservedEmpty;
    if c.policy.requireAck {
      Acks.EvidenceVerifies(s, i, s.queues[i].drain.evidence.backend.backend);
    }
  }

  // ---- runs: where quiesced queues come from --------------------------------

  /** At some event a live call quiesced queue i on evidence. */
  ghost predicate EverQuiesced(c: Config, s: State, es: seq<Event>, i: Id) {
    exists k :: 0 < k <= |es| && BecomesQuiesced(c, s, es[..k], i)
  }

  /** A record of a quiesced queue. */
  predicate HoldsQuiesced(rec: Record) {
    rec.QueueState? && rec.queue.lifecycle.Quiesced?
  }

  ghost predicate RecordsCaused(c: Config, s: State, es: seq<Event>, records: seq<Record>) {
    forall k :: 0 <= k < |records| && HoldsQuiesced(records[k]) ==> EverQuiesced(c, s, es, records[k].queue.def.id)
  }

  ghost predicate QueuesCaused(c: Config, s: State, es: seq<Event>, queues: map<Id, Queue>) {
    forall i :: i in queues && queues[i].lifecycle.Quiesced? ==> EverQuiesced(c, s, es, i)
  }

  ghost predicate QuiescedCaused(c: Config, s: State, es: seq<Event>) {
    QueuesCaused(c, s, es, Exec(c, s, es).queues) && RecordsCaused(c, s, es, Exec(c, s, es).journal.records)
  }

  lemma EverQuiescedOn(c: Config, s: State, es: seq<Event>, i: Id)
    requires es != [] && EverQuiesced(c, s, es[..|es| - 1], i)
    ensures EverQuiesced(c, s, es, i)
  {
    hide BecomesQuiesced;
    var before := es[..|es| - 1];
    var k :| 0 < k <= |before| && BecomesQuiesced(c, s, before[..k], i);
    assert before[..k] == es[..k];
  }

  /** A quiesced queue read from the journal was recorded quiesced. */
  lemma {:induction false} LoadQuiesced(records: seq<Record>, header: nat, i: Id)
    requires i in Load(records, header).queues && Load(records, header).queues[i].lifecycle.Quiesced?
    ensures exists k :: 0 <= k < |records| && HoldsQuiesced(records[k]) && records[k].queue.def.id == i
  {
    hide StorableQueue, StorableResource, Decodable, Reopened, Invalidate;
    if records != [] {
      var n := |records| - 1;
      var last := records[n];
      if last.QueueState? && StorableQueue(last.queue) && last.queue.def.id == i {
        assert HoldsQuiesced(records[n]);
      } else {
        LoadQuiesced(records[..n], header, i);
        var k :| 0 <= k < n && HoldsQuiesced(records[..n][k]) && records[..n][k].queue.def.id == i;
        assert records[k] == records[..n][k];
      }
    }
  }

  lemma SnapshotQueues(s: State)
    ensures forall k :: 0 <= k < |Snapshot(s)| && Snapshot(s)[k].QueueState? ==> exists i :: i in s.queues && Snapshot(s)[k].queue == s.queues[i]
  {
    hide Ascending;
    forall i ensures i in Ascending(s.queues.Keys) ==> i in s.queues {
      AscendingMembers(s.queues.Keys, i);
    }
  }

  /** Records of quiesced queues come from earlier records or from memory. */
  lemma StepRecordsCaused(c: Config, s: State, es: seq<Event>, before: State, e: Event, next: State)
    requires JournalStep(c, before, e, next) && AllSound(c, before)
    requires RecordsCaused(c, s, es, before.journal.records) && QueuesCaused(c, s, es, before.queues)
    ensures RecordsCaused(c, s, es, next.journal.records)
  {
    hide Snapshot, EverQuiesced, Soundness.Sound, BackendsStep;
    if e.CompactJournal? {
      SnapshotQueues(before);
    } else {
      var old_, new_ := before.journal.records, next.journal.records;
      assert forall k | 0 <= k < |old_| :: new_[k] == new_[..|old_|][k];
      assert forall k | |old_| <= k < |new_| :: RecordStep(before, e, new_[k]);
    }
  }

  lemma StepQueuesCaused(c: Config, s: State, es: seq<Event>)
    requires es != [] && !es[|es| - 1].Restart? && QueuesCaused(c, s, es[..|es| - 1], Exec(c, s, es[..|es| - 1]).queues)
    ensures QueuesCaused(c, s, es, Exec(c, s, es).queues)
  {
    hide Step, EverQuiesced;
    var before, next := Exec(c, s, es[..|es| - 1]), Exec(c, s, es);
    forall i | i in next.queues && next.queues[i].lifecycle.Quiesced? ensures EverQuiesced(c, s, es, i) {
      if i in before.queues && before.queues[i].lifecycle.Quiesced? {
        EverQuiescedOn(c, s, es, i);
      } else {
        JustQuiesced(c, s, es, i);
      }
    }
  }

  lemma JustQuiesced(c: Config, s: State, es: seq<Event>, i: Id)
    requires BecomesQuiesced(c, s, es, i)
    ensures EverQuiesced(c, s, es, i)
  {
    hide BecomesQuiesced, Step;
    assert es[..|es|] == es;
    assert |es| > 0 by {
      QuiescedByAnEvent(c, s, es, i);
    }
  }

  lemma QuiescedByAnEvent(c: Config, s: State, es: seq<Event>, i: Id)
    requires BecomesQuiesced(c, s, es, i)
    ensures es != []
  {
    hide Exec;
  }

  lemma RecordsCausedOn(c: Config, s: State, es: seq<Event>, records: seq<Record>)
    requires es != [] && RecordsCaused(c, s, es[..|es| - 1], records)
    ensures RecordsCaused(c, s, es, records)
  {
    hide EverQuiesced;
    forall k | 0 <= k < |records| && HoldsQuiesced(records[k]) ensures EverQuiesced(c, s, es, records[k].queue.def.id) {
      EverQuiescedOn(c, s, es, records[k].queue.def.id);
    }
  }

  lemma StepCaused(c: Config, s: State, es: seq<Event>)
    requires es != [] && !es[|es| - 1].Restart? && Inv(c, Exec(c, s, es[..|es| - 1])) && QuiescedCaused(c, s, es[..|es| - 1])
    ensures QuiescedCaused(c, s, es)
  {
    hide Step, RecordsCaused, QueuesCaused, QueueSteps, ResourceSteps, JournalStep, CoreStep, Counted, AllSound, RecordsSound, EpochStored,
      EpochsAgree;
    var n := |es| - 1;
    var before := Exec(c, s, es[..n]);
    Deltas.StepDelta(c, before, es[n]);
    StepRecordsCaused(c, s, es[..n], before, es[n], Exec(c, s, es));
    RecordsCausedOn(c, s, es, Exec(c, s, es).journal.records);
    StepQueuesCaused(c, s, es);
  }

  // ---- recovery records nothing new -----------------------------------------

  /** No record of a queue is added. */
  predicate AddsNoQueue(records: seq<Record>, next: seq<Record>) {
    && |records| <= |next| && next[..|records|] == records
    && forall k :: |records| <= k < |next| ==> !next[k].QueueState?
  }

  lemma JournalledAddsNoQueue(c: Config, j: Journal, k: Journal, r: Request, io: Io, took: bool)
    requires Journalled(c, j, k, r, io, took)
    ensures AddsNoQueue(j.records, k.records)
  {
    hide Encodable;
    var added := Added(j, k);
    assert forall n | |j.records| <= n < |k.records| :: k.records[n] == added[n - |j.records|];
  }

  lemma AddsNoQueueTwice(a: seq<Record>, b: seq<Record>, d: seq<Record>)
    requires AddsNoQueue(a, b) && AddsNoQueue(b, d)
    ensures AddsNoQueue(a, d)
  {
    assert d[..|a|] == d[..|b|][..|a|];
    assert forall k | |a| <= k < |b| :: d[k] == d[..|b|][k];
  }

  lemma {:induction false} ReplayAddsNoQueue(c: Config, s: State, order: seq<Request>, feed: seq<Moment>)
    ensures AddsNoQueue(s.journal.records, Replay(c, s, order, feed).journal.records)
  {
    hide Apply, AddsNoQueue, Journalled, Heard, SameButCount;
    if order == [] {
      AddsNothing(s.journal.records);
    } else {
      var n := |order| - 1;
      var before := Replay(c, s, order[..n], feed);
      var m := MomentAt(feed, n);
      ReplayAddsNoQueue(c, s, order[..n], feed);
      ApplyRest(c, before, order[n], m.clock, m.io, true);
      var reply := Apply(c, before, order[n], m.clock, m.io, true);
      JournalledAddsNoQueue(c, before.journal, reply.state.journal, order[n], m.io, reply.verdict.Took?);
      AddsNoQueueTwice(s.journal.records, before.journal.records, reply.state.journal.records);
    }
  }

  lemma AddsNothing(records: seq<Record>)
    ensures AddsNoQueue(records, records)
  {
  }

  lemma RecoverAddsNoQueue(c: Config, j: Journal, boot: Boot, feed: seq<Moment>, clock: int)
    requires c.hasJournal && Recover(c, j, boot, feed, clock).verdict.Took?
    ensures AddsNoQueue(j.records, Recover(c, j, boot, feed, clock).state.journal.records)
  {
    hide Load, Replay, Distrusted, Rebuild, Apply, AddsNoQueue, Orphaned;
    var l := Load(j.records, j.headerEpoch);
    var base := Base(l, j, boot);
    BaseJournal(l, j, boot);
    ReplayAddsNoQueue(c, base, l.order, feed);
    var replayed := Replay(c, base, l.order, feed);
    RebuildRest(Distrust(replayed, l.outstanding));
    AnnounceAddsNoQueue(Rebuild(Distrust(replayed, l.outstanding)));
    AddsNoQueueTwice(j.records, replayed.journal.records, Announce(Rebuild(Distrust(replayed, l.outstanding))).journal.records);
  }

  lemma BaseJournal(l: Loaded, j: Journal, boot: Boot)
    ensures Base(l, j, boot).journal == j
  {
    hide FreshIds, NamesOf, WithCount, Adopted;
  }

  lemma AnnounceAddsNoQueue(s: State)
    ensures AddsNoQueue(s.journal.records, Announce(s).journal.records)
  {
  }

  lemma RestartRecords(c: Config, s: State, e: Event)
    requires c.hasJournal && e.Restart? && Step(c, s, e).verdict.Took?
    ensures AddsNoQueue(Survivor(s.journal, e.keep).records, Step(c, s, e).state.journal.records)
  {
    hide Load, Base, Replay, Distrust, Rebuild, Announce, Apply, AddsNoQueue, Survivor;
    assert Unfold(c, s, e);
    RecoverAddsNoQueue(c, Survivor(s.journal, e.keep), e.boot, e.feed, e.clock);
  }

  lemma AddsNoQueueCaused(c: Config, s: State, es: seq<Event>, records: seq<Record>, kept: seq<Record>, next: seq<Record>)
    requires RecordsCaused(c, s, es, records) && |kept| <= |records| && kept == records[..|kept|] && AddsNoQueue(kept, next)
    ensures RecordsCaused(c, s, es, next) && RecordsCaused(c, s, es, kept)
  {
    hide EverQuiesced;
    assert forall k | 0 <= k < |kept| :: next[k] == next[..|kept|][k];
  }

  lemma RestartCaused(c: Config, s: State, es: seq<Event>)
    requires es != [] && es[|es| - 1].Restart? && Inv(c, Exec(c, s, es[..|es| - 1])) && QuiescedCaused(c, s, es[..|es| - 1])
    requires Step(c, Exec(c, s, es[..|es| - 1]), es[|es| - 1]).verdict.Took?
    ensures QuiescedCaused(c, s, es)
  {
    hide Step, RecordsCaused, QueuesCaused, Inv, NoClaims, QuiescedFrom, AddsNoQueue, Load, EverQuiesced;
    var n := |es| - 1;
    var before := Exec(c, s, es[..n]);
    var next := Exec(c, s, es);
    RecordsCausedOn(c, s, es, before.journal.records);
    RestartNoClaims(c, before, es[n]);
    if c.hasJournal {
      var kept := Survivor(before.journal, es[n].keep).records;
      RestartRecords(c, before, es[n]);
      AddsNoQueueCaused(c, s, es, before.journal.records, kept, next.journal.records);
      LoadedCaused(c, s, es, kept, before.journal.headerEpoch, next.queues);
    } else {
      RestartBlank(c, before, es[n]);
      NothingCaused(c, s, es);
    }
  }

  lemma NothingCaused(c: Config, s: State, es: seq<Event>)
    ensures QueuesCaused(c, s, es, map[]) && RecordsCaused(c, s, es, [])
  {
    hide EverQuiesced;
  }

  lemma RestartBlank(c: Config, s: State, e: Event)
    requires !c.hasJournal && e.Restart?
    ensures Step(c, s, e).state == Blank(e.boot)
  {
    hide Load, Base, Replay, Distrust, Rebuild, Announce, Apply, Survivor;
    assert Unfold(c, s, e);
  }

  lemma LoadedCaused(c: Config, s: State, es: seq<Event>, records: seq<Record>, header: nat, queues: map<Id, Queue>)
    requires RecordsCaused(c, s, es, records) && QuiescedFrom(Load(records, header).queues, queues)
    ensures QueuesCaused(c, s, es, queues)
  {
    hide EverQuiesced, Load;
    forall i | i in queues && queues[i].lifecycle.Quiesced? ensures EverQuiesced(c, s, es, i) {
      LoadQuiesced(records, header, i);
    }
  }

  /** In every run, restarts from snapshots included, a quiesced queue was once
      quiesced by a live call, and therefore on evidence. */
  lemma {:induction false} QuiescedWasEvidenced(c: Config, s: State, es: seq<Event>)
    requires Inv(c, s) && Serves(c, s, es) && QuiescedCaused(c, s, [])
    ensures QuiescedCaused(c, s, es)
  {
    hide Step, Inv, QuiescedCaused;
    if es != [] {
      QuiescedWasEvidenced(c, s, es[..|es| - 1]);
      ExecInv(c, s, es[..|es| - 1]);
      if es[|es| - 1].Restart? {
        RestartCaused(c, s, es);
      } else {
        StepCaused(c, s, es);
      }
    }
  }

  lemma StartCaused(c: Config, boot: Boot)
    ensures QuiescedCaused(c, Start(c, boot), [])
  {
    hide EverQuiesced, Base, Replay, Rebuild, Apply, Distrust, AddsNoQueue;
    StartEmpty(c, boot);
    if c.hasJournal {
      RecoverAddsNoQueue(c, Journal([], 0, 0), boot, [], 0);
      NothingCaused(c, Start(c, boot), []);
      AddsNoQueueCaused(c, Start(c, boot), [], [], [], Start(c, boot).journal.records);
    }
  }

  /** Whatever a run did, a queue found quiesced was quiesced by some live call
      of that run; QuiescenceIsEvidenced says on what evidence. */
  lemma QuiescedHasCause(c: Config, boot: Boot, es: seq<Event>, i: Id)
    requires Serves(c, Start(c, boot), es)
    requires i in Exec(c, Start(c, boot), es).queues && Exec(c, Start(c, boot), es).queues[i].lifecycle.Quiesced?
    ensures EverQuiesced(c, Start(c, boot), es, i)
  {
    hide Step, Inv, Start, EverQuiesced;
    StartInv(c, boot);
    StartCaused(c, boot);
    QuiescedWasEvidenced(c, Start(c, boot), es);
  }
}
