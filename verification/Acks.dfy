/** A stored backend acknowledgement that stops verifying never verifies again. */
module Acks {
  import opened Status
  import opened Entities
  import opened Mutations
  import opened Work
  import opened Machine
  import opened Evolution
  import opened Recovery
  import opened Run
  import opened Steps
  import opened Reach
  import opened Backends
  import opened Extremes
  import Soundness
  import Epochs
  import Deltas
  import Drains
  import Lifecycles
  import Occupancies
  import Laws

  /** The acknowledgement queue i stores can be verified now. */
  predicate Verifies(s: State, i: Id) {
    && i in s.queues
    && var q := s.queues[i];
      && q.def.resource in s.resources
      && var live := FindLive(s.resources[q.def.resource].backends, q.applied.backend);
        live.Some? && Verify(q.applied, live.value, s.epoch, q.def.generation, q.def.cls).Ok?
  }

  // ---- registrations --------------------------------------------------------

  predicate Unique(backends: seq<Backend>) {
    forall j, k :: 0 <= j < k < |backends| ==> backends[j].id != backends[k].id
  }

  predicate Below(backends: seq<Backend>, next: Id) {
    forall k :: 0 <= k < |backends| ==> backends[k].id < next
  }

  lemma {:induction false} FindLiveSpec(backends: seq<Backend>, id: Id)
    ensures FindLive(backends, id).Some? <==> id != 0 && exists k :: 0 <= k < |backends| && backends[k].id == id && backends[k].alive
    ensures FindLive(backends, id).Some? ==>
      FindLive(backends, id).value in backends && FindLive(backends, id).value.id == id && FindLive(backends, id).value.alive
  {
    if backends != [] && id != 0 && !(backends[0].id == id && backends[0].alive) {
      FindLiveSpec(backends[1..], id);
      if FindLive(backends[1..], id).Some? {
        var k :| 0 <= k < |backends[1..]| && backends[1..][k].id == id && backends[1..][k].alive;
        assert backends[k + 1].id == id && backends[k + 1].alive;
      } else {
        forall k | 0 <= k < |backends| ensures !(backends[k].id == id && backends[k].alive) {
          assert k == 0 || backends[k] == backends[1..][k - 1];
        }
      }
    }
  }

  lemma {:induction false} BurySpec(backends: seq<Backend>, id: Id)
    requires Unique(backends)
    ensures var next := Bury(backends, id);
      |next| == |backends| &&
      forall k :: 0 <= k < |next| ==> next[k] == if backends[k].id == id then backends[k].(alive := false) else backends[k]
  {
    if backends != [] {
      var rest := backends[1..];
      assert forall j, k :: 0 <= j < k < |rest| ==> rest[j] == backends[j + 1] && rest[k] == backends[k + 1];
      BurySpec(rest, id);
    }
  }

  lemma BackendsStepUnique(s: State, e: Event, earlier: seq<Backend>, next: seq<Backend>)
    requires BackendsStep(s, e, earlier, next) && Unique(earlier) && Below(earlier, s.ids.backend)
    ensures Unique(next) && Below(next, s.ids.backend + if e.NewBackend? then 1 else 0)
  {
    if e.BackendDied? {
      BurySpec(earlier, e.backend);
    }
    if e.NewBackend? && next != earlier {
      assert forall k :: 0 <= k < |earlier| ==> next[k] == next[..|earlier|][k];
    }
  }

  /** A registration that is live after the step and was numbered before it was
      live before it. */
  lemma LiveBefore(s: State, e: Event, earlier: seq<Backend>, next: seq<Backend>, id: Id)
    requires BackendsStep(s, e, earlier, next) && Unique(earlier) && Below(earlier, s.ids.backend)
    requires id < s.ids.backend && FindLive(next, id).Some?
    ensures FindLive(earlier, id) == FindLive(next, id)
  {
    hide FindLive, Bury;
    FindLiveSpec(next, id);
    FindLiveSpec(earlier, id);
    BackendsStepUnique(s, e, earlier, next);
    BurySpec(earlier, if e.BackendDied? then e.backend else 0);
    var k :| 0 <= k < |next| && next[k] == FindLive(next, id).value;
    if e.NewBackend? && next != earlier {
      assert next[k] == next[..|earlier|][k];
    }
    assert earlier[k] == next[k];
    var j :| 0 <= j < |earlier| && earlier[j] == FindLive(earlier, id).value;
    assert j == k;
  }

  // ---- the invariant --------------------------------------------------------

  predicate Registered(s: State) {
    forall i :: i in s.resources ==> Unique(s.resources[i].backends) && Below(s.resources[i].backends, s.ids.backend)
  }

  /** An acknowledgement of the current epoch names a backend of this life. */
  predicate AcksKnown(s: State) {
    forall i :: i in s.queues && s.queues[i].applied.known && s.queues[i].applied.epoch == s.epoch ==>
      s.queues[i].applied.backend < s.ids.backend
  }

  predicate RecordsUnique(records: seq<Record>) {
    forall k :: 0 <= k < |records| && records[k].ResourceState? ==> Unique(records[k].resource.backends)
  }

  predicate AckInv(s: State) {
    Registered(s) && AcksKnown(s) && RecordsUnique(s.journal.records)
  }

  // ---- one call -------------------------------------------------------------

  lemma RegisteredStep(s: State, e: Event, next: State)
    requires Registered(s) && ResourceSteps(s, e, next)
    ensures Registered(next)
  {
    hide BackendsStep;
    forall i | i in next.resources ensures Unique(next.resources[i].backends) && Below(next.resources[i].backends, next.ids.backend) {
      if i in s.resources {
        assert ResourceStep(s, e, next, i);
        BackendsStepUnique(s, e, s.resources[i].backends, next.resources[i].backends);
      }
    }
  }

  lemma RecordsUniqueStep(c: Config, s: State, e: Event, next: State)
    requires Registered(s) && RecordsUnique(s.journal.records) && JournalStep(c, s, e, next)
    ensures RecordsUnique(next.journal.records)
  {
    hide BackendsStep, Snapshot, CommitKind;
    if e.CompactJournal? {
      SnapshotUnique(s);
    } else {
      forall k | 0 <= k < |next.journal.records| && next.journal.records[k].ResourceState?
        ensures Unique(next.journal.records[k].resource.backends)
      {
        var rec := next.journal.records[k];
        if k < |s.journal.records| {
          assert rec == s.journal.records[k];
        } else {
          assert RecordStep(s, e, rec);
          if rec.resource.backends != [] {
            BackendsStepUnique(s, e, s.resources[rec.resource.id].backends, rec.resource.backends);
          }
        }
      }
    }
  }

  lemma SnapshotUnique(s: State)
    requires Registered(s)
    ensures RecordsUnique(Snapshot(s))
  {
    hide Ascending;
    forall i ensures i in Ascending(s.resources.Keys) ==> i in s.resources {
      AscendingMembers(s.resources.Keys, i);
    }
  }

  /** Work other than an acknowledgement keeps the stored one and what it is
      bound to, or forgets it. */
  lemma PerformAck(c: Config, env: Env, q: Queue, r: Request)
    requires PayloadMatches(r.kind, r.payload)
    ensures var w := Perform(c, env, q, r); w.Done? && !r.kind.AcknowledgeBackend? ==>
      (w.queue.applied == q.applied && w.queue.def == q.def) || !w.queue.applied.known
    ensures var w := Perform(c, env, q, r); w.Done? && r.kind.AcknowledgeBackend? ==>
      w.queue.def == q.def && w.queue.applied.known && FindLive(env.resource.backends, w.queue.applied.backend).Some?
  {
    hide CheckBinding, Drains.Assess, FindLive, QueuePolicy, SameLife, Bounded, Lifecycles.CheckTransition, NoteZero, Verify,
      Occupancies.Invalidate;
  }

  /** The step took an acknowledgement for queue i. */
  predicate Acknowledges(s: State, e: Event, reply: Reply, i: Id) {
    && reply.verdict.Took? && RequestOf(s, e).Some?
    && RequestOf(s, e).value.kind.AcknowledgeBackend? && RequestOf(s, e).value.queue == i
  }

  /** What happens to the acknowledgement a queue stores. */
  predicate AckStep(s: State, e: Event, reply: Reply, i: Id)
    requires i in s.queues && i in reply.state.queues
  {
    var q, q' := s.queues[i], reply.state.queues[i];
    if Acknowledges(s, e, reply, i) then
      && q'.def == q.def && q.def.resource in s.resources
      && FindLive(s.resources[q.def.resource].backends, q'.applied.backend).Some?
    else !q'.applied.known || (q'.applied == q.applied && q'.def == q.def)
  }

  lemma WorkedAck(c: Config, s: State, now: int, q: Queue, r: Request, replaying: bool, next: Queue)
    requires Worked(c, s, now, q, r, replaying, next)
    ensures q.def.resource in s.resources
    ensures r.kind.AcknowledgeBackend? ==> next.def == q.def && FindLive(s.resources[q.def.resource].backends, next.applied.backend).Some?
    ensures !r.kind.AcknowledgeBackend? ==> !next.applied.known || (next.applied == q.applied && next.def == q.def)
  {
    hide Perform, Admitted, Remembered, PayloadMatches, Durable, Kept, FindLive;
    Soundness.AdmittedResource(c, s, q, r, replaying);
    PerformAck(c, EnvAt(s, q, now), q, r);
    var w := Perform(c, EnvAt(s, q, now), q, r);
    RememberedKept(c, w.queue, r, Ok, Durable(r.kind) && c.hasJournal);
    KeptAck(c, r, w.queue, next);
  }

  lemma KeptAck(c: Config, r: Request, q: Queue, next: Queue)
    requires Kept(c, r, q, next)
    ensures next.applied == q.applied && next.def == q.def
  {
    hide MemoGrows;
  }

  lemma MarkedAck(c: Config, s: State, e: Event, next: State, i: Id)
    requires i in s.queues && Marked(c, s, e, next, i)
    ensures i in next.queues && next.queues[i].applied == s.queues[i].applied && next.queues[i].def == s.queues[i].def
  {
    hide NextClass, QueuePolicy, Occupancies.Classify, Occupancies.Invalidate;
  }

  lemma AckSteps(c: Config, s: State, e: Event, reply: Reply, i: Id)
    requires QueueSteps(c, s, e, reply) && i in s.queues
    ensures i in reply.state.queues && AckStep(s, e, reply, i)
  {
    hide Worked, Kept, Marked, HasTarget, Installed, FindLive;
    assert QueueStep(c, s, e, reply, i);
    if RequestOf(s, e).None? {
      MarkedAck(c, s, e, reply.state, i);
    } else {
      var r := RequestOf(s, e).value;
      if reply.verdict.Took? && r.queue == i && !r.kind.DeclareQueue? {
        WorkedAck(c, s, reply.state.watermark, s.queues[i], r, false, reply.state.queues[i]);
      } else {
        KeptAck(c, r, s.queues[i], reply.state.queues[i]);
      }
    }
  }

  lemma InstalledAck(c: Config, s: State, r: Request, replaying: bool, reply: Reply, i: Id)
    requires Installed(c, s, r, replaying, reply, i)
    ensures !reply.state.queues[i].applied.known
  {
    hide CheckDeclaration, Check, Remembered, Kept;
    var q := NewQueue(r, i, reply.state.watermark);
    RememberedKept(c, q, r, Ok, c.hasJournal);
    KeptAck(c, r, q, reply.state.queues[i]);
  }

  lemma LiveIsBelow(s: State, resource: Id, backend: Id)
    requires Registered(s) && resource in s.resources && FindLive(s.resources[resource].backends, backend).Some?
    ensures backend < s.ids.backend
  {
    hide FindLive;
    FindLiveSpec(s.resources[resource].backends, backend);
  }

  lemma AcksKnownStep(c: Config, s: State, e: Event, reply: Reply)
    requires AllSound(c, s) && Registered(s) && AcksKnown(s)
    requires QueueSteps(c, s, e, reply) && ResourceSteps(s, e, reply.state) && CoreStep(s, e, reply.state)
    ensures AcksKnown(reply.state)
  {
    hide QueueStep, HasTarget, Installed, FindLive, ResourceStep, Registered, Soundness.WithinBounds, Soundness.Coherent, Acknowledges;
    var next := reply.state;
    forall i | i in next.queues && next.queues[i].applied.known && next.queues[i].applied.epoch == next.epoch
      ensures next.queues[i].applied.backend < next.ids.backend
    {
      if i in s.queues {
        AckSteps(c, s, e, reply, i);
        if Acknowledges(s, e, reply, i) {
          LiveIsBelow(s, s.queues[i].def.resource, next.queues[i].applied.backend);
        }
      } else {
        InstalledAck(c, s, e.request, false, reply, i);
      }
    }
  }

  /** One call does not bring an acknowledgement back. */
  lemma NoRevival(c: Config, s: State, e: Event, i: Id)
    requires Inv(c, s) && AckInv(s) && !e.Restart?
    requires !Verifies(s, i) && !Acknowledges(s, e, Step(c, s, e), i)
    ensures !Verifies(Step(c, s, e).state, i)
  {
    hide Step, QueueSteps, ResourceSteps, CoreStep, JournalStep, Counted, Inv, AckInv, Verifies, Acknowledges;
    var reply := Step(c, s, e);
    Epochs.InvCounted(c, s);
    Deltas.StepDelta(c, s, e);
    if i in s.queues {
      StaysUnverified(c, s, e, reply, i);
    } else if i in reply.state.queues {
      NewQueueUnverified(c, s, e, reply, i);
    } else {
      AbsentUnverified(reply.state, i);
    }
  }

  lemma AbsentUnverified(s: State, i: Id)
    requires i !in s.queues || !s.queues[i].applied.known
    ensures !Verifies(s, i)
  {
    hide FindLive;
  }

  lemma NewQueueUnverified(c: Config, s: State, e: Event, reply: Reply, i: Id)
    requires QueueSteps(c, s, e, reply) && i !in s.queues && i in reply.state.queues
    ensures !Verifies(reply.state, i)
  {
    hide QueueStep, HasTarget, Installed, Verifies;
    InstalledAck(c, s, e.request, false, reply, i);
    AbsentUnverified(reply.state, i);
  }

  lemma StaysUnverified(c: Config, s: State, e: Event, reply: Reply, i: Id)
    requires Inv(c, s) && AckInv(s) && Delta(c, s, e, reply) && i in s.queues
    requires !Verifies(s, i) && !Acknowledges(s, e, reply, i)
    ensures !Verifies(reply.state, i)
  {
    hide QueueSteps, JournalStep, Counted, FindLive, BackendsStep, EpochStored, RecordsSound, RecordsUnique, EpochsAgree,
      Soundness.WithinBounds, Soundness.Coherent, Unique, Below, Acknowledges;
    AckSteps(c, s, e, reply, i);
    var next := reply.state;
    if Verifies(next, i) {
      var q := s.queues[i];
      assert next.queues[i].applied == q.applied && next.queues[i].def == q.def;
      assert q.applied.epoch == s.epoch && next.epoch == s.epoch;
      if q.def.resource in s.resources {
        assert ResourceStep(s, e, next, q.def.resource);
        LiveBefore(s, e, s.resources[q.def.resource].backends, next.resources[q.def.resource].backends, q.applied.backend);
      } else {
        FindLiveSpec(next.resources[q.def.resource].backends, q.applied.backend);
      }
    }
  }

  lemma AckInvStep(c: Config, s: State, e: Event)
    requires Inv(c, s) && AckInv(s) && !e.Restart?
    ensures AckInv(Step(c, s, e).state)
  {
    hide Step, QueueSteps, ResourceSteps, CoreStep, JournalStep, Counted, AllSound, EpochsAgree, EpochStored, RecordsSound,
      Registered, AcksKnown, RecordsUnique;
    Deltas.StepDelta(c, s, e);
    RegisteredStep(s, e, Step(c, s, e).state);
    AcksKnownStep(c, s, e, Step(c, s, e));
    RecordsUniqueStep(c, s, e, Step(c, s, e).state);
  }

  // ---- recovery -------------------------------------------------------------

  predicate NoneAlive(s: State) {
    forall i, k :: i in s.resources && 0 <= k < |s.resources[i].backends| ==> !s.resources[i].backends[k].alive
  }

  predicate AcksUpTo(s: State, epoch: nat) {
    forall i :: i in s.queues && s.queues[i].applied.known ==> s.queues[i].applied.epoch <= epoch
  }

  /** What replay keeps of registrations and acknowledgements. */
  predicate Quiet(s: State, epoch: nat) {
    NoneAlive(s) && Registered(s) && AcksUpTo(s, epoch) && RecordsUnique(s.journal.records)
  }

  /** Nothing verifies while no backend is alive. */
  lemma NoneAliveUnverified(s: State, i: Id)
    requires NoneAlive(s)
    ensures !Verifies(s, i)
  {
    hide FindLive;
    if i in s.queues && s.queues[i].def.resource in s.resources {
      FindLiveSpec(s.resources[s.queues[i].def.resource].backends, s.queues[i].applied.backend);
    }
  }

  predicate LoadedUnique(l: Loaded) {
    forall i :: i in l.resources ==> Unique(l.resources[i].backends)
  }

  lemma {:induction false} LoadUnique(records: seq<Record>, header: nat)
    requires RecordsUnique(records)
    ensures LoadedUnique(Load(records, header))
  {
    hide Unique, StorableQueue, StorableResource, Restored, Decodable;
    if records != [] {
      LoadUnique(records[..|records| - 1], header);
    }
  }

  lemma FreshBackend(resources: map<Id, Resource>, queues: map<Id, Queue>, i: Id)
    requires i in resources
    ensures Below(resources[i].backends, FreshIds(resources, queues).backend)
  {
    var ids := set i, k | i in resources && 0 <= k < |resources[i].backends| :: resources[i].backends[k].id;
    forall k | 0 <= k < |resources[i].backends| ensures resources[i].backends[k].id <= Greatest(ids) {
      assert resources[i].backends[k].id in ids;
    }
  }

  lemma RebuildQuiet(s: State, epoch: nat)
    requires NoneAlive(s) && AcksUpTo(s, epoch) && RecordsUnique(s.journal.records)
    requires forall i :: i in s.resources ==> Unique(s.resources[i].backends)
    ensures Quiet(Rebuild(s), epoch)
  {
    hide FreshIds, NamesOf, QueuesOf, Unique, Below;
    forall i | i in s.resources ensures Below(s.resources[i].backends, FreshIds(s.resources, s.queues).backend) {
      FreshBackend(s.resources, s.queues, i);
    }
  }

  lemma BaseQuiet(c: Config, l: Loaded, j: Journal, boot: Boot)
    requires LoadedUnique(l) && LoadedSound(c, l, l.epoch) && RecordsUnique(j.records)
    ensures Quiet(Base(l, j, boot), l.epoch)
  {
    hide Rebuild, Quiet, RecordsUnique, Soundness.WithinBounds, Soundness.Coherent, CommitKind;
    var epoch := NextEpoch(l.epoch);
    var raw := Blank(boot).(
      epoch := epoch, incarnation := l.incarnation, journal := j, queues := l.queues,
      resources := AllAdopted(l.resources, epoch));
    RebuildQuiet(raw, l.epoch);
  }

  lemma ApplyQuiet(c: Config, s: State, r: Request, m: Moment, epoch: nat)
    requires Quiet(s, epoch) && Counted(s)
    ensures Quiet(Apply(c, s, r, m.clock, m.io, true).state, epoch)
  {
    hide Apply, Handled, Installed, HasTarget, Heard, Journalled, Unique, Below;
    var reply := Apply(c, s, r, m.clock, m.io, true);
    ApplyQueues(c, s, r, m.clock, m.io, true);
    ApplyRest(c, s, r, m.clock, m.io, true);
    JournalledUnique(c, s.journal, reply.state.journal, r, m.io, reply.verdict.Took?);
    forall i | i in reply.state.queues && reply.state.queues[i].applied.known
      ensures reply.state.queues[i].applied.epoch <= epoch
    {
      if i in s.queues {
        HandledQuiet(c, s, r, reply, i);
      } else {
        InstalledAck(c, s, r, true, reply, i);
      }
    }
  }

  lemma JournalledUnique(c: Config, j: Journal, k: Journal, r: Request, io: Io, took: bool)
    requires RecordsUnique(j.records) && Journalled(c, j, k, r, io, took)
    ensures RecordsUnique(k.records)
  {
    hide Unique, Encodable;
    var added := Added(j, k);
    assert forall n | |j.records| <= n < |k.records| :: k.records[n] == added[n - |j.records|];
    assert forall n | 0 <= n < |j.records| :: k.records[n] == k.records[..|j.records|][n];
  }

  /** With no live backend a replayed acknowledgement is refused. */
  lemma HandledQuiet(c: Config, s: State, r: Request, reply: Reply, i: Id)
    requires NoneAlive(s) && i in s.queues && Handled(c, s, r, true, reply, i)
    ensures i in reply.state.queues
    ensures !reply.state.queues[i].applied.known || reply.state.queues[i].applied == s.queues[i].applied
  {
    hide Worked, Kept, FindLive;
    if reply.verdict.Took? && r.queue == i && !r.kind.DeclareQueue? {
      WorkedAck(c, s, reply.state.watermark, s.queues[i], r, true, reply.state.queues[i]);
      FindLiveSpec(s.resources[s.queues[i].def.resource].backends, reply.state.queues[i].applied.backend);
    } else {
      KeptAck(c, r, s.queues[i], reply.state.queues[i]);
    }
  }

  lemma {:induction false} ReplayQuiet(c: Config, s: State, order: seq<Request>, feed: seq<Moment>, epoch: nat, past: nat)
    requires Quiet(s, past) && Replayable(c, s, epoch)
    ensures Quiet(Replay(c, s, order, feed), past)
  {
    hide Replayable, Quiet, Apply, Counted;
    if order != [] {
      var n := |order| - 1;
      var before := Replay(c, s, order[..n], feed);
      ReplayQuiet(c, s, order[..n], feed, epoch, past);
      ReplayReplayable(c, s, order[..n], feed, epoch);
      ReplayableCounted(c, before, epoch);
      ApplyQuiet(c, before, order[n], MomentAt(feed, n), past);
    }
  }

  lemma ReplayableCounted(c: Config, s: State, epoch: nat)
    requires Replayable(c, s, epoch)
    ensures Counted(s)
  {
    hide Counted, AllSound, EpochsAgree, RecordsSound;
  }

  lemma FinishQuiet(s: State, outstanding: map<Attempt, Request>, epoch: nat)
    requires Quiet(s, epoch)
    ensures Quiet(Announce(Rebuild(Distrust(s, outstanding))), epoch)
  {
    hide Rebuild, Orphaned, Unique, Below;
    RebuildQuiet(Distrust(s, outstanding), epoch);
  }

  lemma RecoverQuiet(c: Config, j: Journal, boot: Boot, feed: seq<Moment>, clock: int)
    requires c.hasJournal && Recover(c, j, boot, feed, clock).verdict.Took?
    requires RecordsSound(c, j.records, Load(j.records, j.headerEpoch).epoch) && RecordsUnique(j.records)
    ensures Quiet(Recover(c, j, boot, feed, clock).state, Load(j.records, j.headerEpoch).epoch)
  {
    hide RecordsSound, LoadedSound, Replayable, Load, Base, Replay, Distrust, Rebuild, Announce, Quiet, LoadedUnique, RecordsUnique;
    var l := Load(j.records, j.headerEpoch);
    LoadSound(c, j.records, j.headerEpoch, l.epoch);
    LoadUnique(j.records, j.headerEpoch);
    BaseQuiet(c, l, j, boot);
    RecordsSoundLater(c, j.records, l.epoch, NextEpoch(l.epoch));
    LoadSound(c, j.records, j.headerEpoch, NextEpoch(l.epoch));
    BaseReplayable(c, l, j, boot);
    var base := Base(l, j, boot);
    ReplayQuiet(c, base, l.order, feed, NextEpoch(l.epoch), l.epoch);
    var replayed := Replay(c, base, l.order, feed);
    FinishQuiet(replayed, l.outstanding, l.epoch);
    var done := Announce(Rebuild(Distrust(replayed, l.outstanding)));
    QuietAnyTime(done, Later(done.watermark, clock), l.epoch);
  }

  lemma QuietAnyTime(s: State, watermark: int, epoch: nat)
    requires Quiet(s, epoch)
    ensures Quiet(s.(watermark := watermark), epoch)
  {
    hide Unique, Below;
  }

  lemma QuietAckInv(s: State, epoch: nat)
    requires Quiet(s, epoch) && epoch < s.epoch
    ensures AckInv(s)
  {
    hide Unique, Below, RecordsUnique, NoneAlive;
  }

  lemma SurvivorUnique(j: Journal, keep: nat)
    requires RecordsUnique(j.records)
    ensures RecordsUnique(Survivor(j, keep).records)
  {
    hide Unique;
  }

  lemma BlankQuiet(boot: Boot)
    ensures Quiet(Blank(boot), 0)
  {
    hide Unique, Below;
  }

  /** Recovery leaves no live backend, so nothing verifies. */
  lemma RestartQuiet(c: Config, s: State, e: Event)
    requires Inv(c, s) && AckInv(s) && e.Restart? && Step(c, s, e).verdict.Took?
    ensures AckInv(Step(c, s, e).state) && NoneAlive(Step(c, s, e).state)
  {
    hide RecordsSound, Load, Base, Replay, Distrust, Rebuild, Announce, Apply, Survivor, AckInv, Quiet, NoneAlive, Inv;
    assert Unfold(c, s, e);
    RestartInv(c, s, e);
    var next := Step(c, s, e).state;
    if c.hasJournal {
      SurvivorSound(c, s, e.keep);
      var j := Survivor(s.journal, e.keep);
      SurvivorUnique(s.journal, e.keep) by {
        AckInvParts(s);
      }
      RecoverQuiet(c, j, e.boot, e.feed, e.clock);
      RecoverInv(c, j, e.boot, e.feed, e.clock);
      QuietAckInv(next, Load(j.records, j.headerEpoch).epoch);
      QuietParts(next, Load(j.records, j.headerEpoch).epoch);
    } else {
      BlankQuiet(e.boot);
      QuietAckInv(next, 0);
      QuietParts(next, 0);
    }
  }

  lemma AckInvParts(s: State)
    requires AckInv(s)
    ensures RecordsUnique(s.journal.records)
  {
    hide RecordsUnique, Registered, AcksKnown;
  }

  lemma QuietParts(s: State, epoch: nat)
    requires Quiet(s, epoch)
    ensures NoneAlive(s)
  {
    hide RecordsUnique, Registered, AcksUpTo, NoneAlive;
  }

  // ---- runs -----------------------------------------------------------------

  lemma StartAcks(c: Config, boot: Boot)
    ensures AckInv(Start(c, boot))
  {
    hide Inv, Base, Replay, Distrust, Rebuild, Announce, Apply, AckInv, Quiet, Unique, RecordSound;
    if c.hasJournal {
      RecoverQuiet(c, Journal([], 0, 0), boot, [], 0);
      RecoverInv(c, Journal([], 0, 0), boot, [], 0);
    } else {
      BlankQuiet(boot);
    }
    QuietAckInv(Start(c, boot), 0);
  }

  lemma {:induction false} ExecAcks(c: Config, s: State, es: seq<Event>)
    requires Inv(c, s) && AckInv(s) && Serves(c, s, es)
    ensures AckInv(Exec(c, s, es))
  {
    hide Step, Inv, AckInv;
    if es != [] {
      var n := |es| - 1;
      ExecAcks(c, s, es[..n]);
      ExecInv(c, s, es[..n]);
      if es[n].Restart? {
        RestartQuiet(c, Exec(c, s, es[..n]), es[n]);
      } else {
        AckInvStep(c, Exec(c, s, es[..n]), es[n]);
      }
    }
  }

  /** Some event from the m-th on took a new acknowledgement for queue i. */
  ghost predicate AcknowledgedFrom(c: Config, s: State, es: seq<Event>, m: nat, i: Id) {
    exists k :: m <= k < |es| && Acknowledges(Exec(c, s, es[..k]), es[k], Step(c, Exec(c, s, es[..k]), es[k]), i)
  }

  /** In every run, through epochs, rebinding, backend deaths and restarts, an
      acknowledgement that does not verify now verifies again only after a new
      one was taken. */
  lemma {:induction false} NeverRegained(c: Config, s: State, es: seq<Event>, m: nat, i: Id)
    requires Inv(c, s) && AckInv(s) && Serves(c, s, es) && m <= |es|
    requires !Verifies(Exec(c, s, es[..m]), i) && Verifies(Exec(c, s, es), i)
    ensures AcknowledgedFrom(c, s, es, m, i)
  {
    hide Step, Inv, AckInv, Verifies, Acknowledges;
    assert es[..|es|] == es;
    if m < |es| {
      var n := |es| - 1;
      var before := es[..n];
      assert before[..m] == es[..m];
      assert forall k | m <= k < n :: before[..k] == es[..k];
      ExecInv(c, s, before);
      ExecAcks(c, s, before);
      if Verifies(Exec(c, s, before), i) {
        NeverRegained(c, s, before, m, i);
      } else if es[n].Restart? {
        RestartQuiet(c, Exec(c, s, before), es[n]);
        NoneAliveUnverified(Exec(c, s, es), i);
      } else if !Acknowledges(Exec(c, s, before), es[n], Step(c, Exec(c, s, before), es[n]), i) {
        NoRevival(c, Exec(c, s, before), es[n], i);
      }
    }
  }

  /** So from an empty journal on, every verified acknowledgement that did not
      verify before was taken in between. */
  lemma RegainedByAcknowledging(c: Config, boot: Boot, es: seq<Event>, m: nat, i: Id)
    requires Serves(c, Start(c, boot), es) && m <= |es|
    requires !Verifies(Exec(c, Start(c, boot), es[..m]), i) && Verifies(Exec(c, Start(c, boot), es), i)
    ensures AcknowledgedFrom(c, Start(c, boot), es, m, i)
  {
    hide Step, Start, Inv, AckInv, Verifies, AcknowledgedFrom, Exec;
    StartInv(c, boot);
    StartAcks(c, boot);
    NeverRegained(c, Start(c, boot), es, m, i);
  }

  /** What quiescing checks is the same: the backend named by the evidence
      verifies the stored acknowledgement only if the acknowledgement verifies. */
  lemma EvidenceVerifies(s: State, i: Id, backend: Id)
    requires i in s.queues && s.queues[i].def.resource in s.resources
    requires var q := s.queues[i];
      var live := FindLive(s.resources[q.def.resource].backends, backend);
      live.Some? && Verify(q.applied, live.value, s.epoch, q.def.generation, q.def.cls).Ok?
    ensures Verifies(s, i)
  {
    hide FindLive, Verify;
    var q := s.queues[i];
    var live := FindLive(s.resources[q.def.resource].backends, backend);
    FindLiveSpec(s.resources[q.def.resource].backends, backend);
    Laws.VerificationIsExact(q.applied, live.value, s.epoch, q.def.generation, q.def.cls);
  }
}
