/** What one step may change, event by event. */
module Steps {
  import opened Status
  import opened Entities
  import opened Mutations
  import opened Work
  import opened Machine
  import opened Evolution
  import opened Recovery
  import opened Run
  import Memos
  import Provenances

  // ---- one mutation, live or replayed ---------------------------------------

  predicate Numbered(s: State) {
    forall i :: i in s.queues ==> i < s.ids.queue
  }

  /** The queue a taken declaration adds. */
  predicate Installed(c: Config, s: State, r: Request, replaying: bool, reply: Reply, i: Id) {
    && r.kind.DeclareQueue? && reply.verdict.Took? && Check(r).Ok? && r.payload.DeclarePayload?
    && CheckDeclaration(c, s, r, replaying).Took?
    && i == s.ids.queue && reply.state.ids.queue == i + 1 && i in reply.state.queues
    && reply.state.queues[i] == Remembered(c, Machine.NewQueue(r, i, reply.state.watermark), r, Ok, c.hasJournal)
  }

  /** What a mutation does to a queue that existed before it. */
  predicate Handled(c: Config, s: State, r: Request, replaying: bool, reply: Reply, i: Id)
    requires i in s.queues
  {
    && i in reply.state.queues
    && if reply.verdict.Took? && r.queue == i && !r.kind.DeclareQueue? then
         Worked(c, s, reply.state.watermark, s.queues[i], r, replaying, reply.state.queues[i])
       else Kept(c, r, s.queues[i], reply.state.queues[i])
  }

  /** A taken mutation declared a queue or worked on one that existed. */
  predicate HasTarget(c: Config, s: State, r: Request, replaying: bool, reply: Reply) {
    reply.verdict.Took? ==>
      if r.kind.DeclareQueue? then Installed(c, s, r, replaying, reply, s.ids.queue) else r.queue in s.queues
  }

  predicate QueuesAfter(c: Config, s: State, r: Request, replaying: bool, reply: Reply) {
    && (forall i :: i in s.queues ==> Handled(c, s, r, replaying, reply, i))
    && (forall i :: i in reply.state.queues ==> i in s.queues || Installed(c, s, r, replaying, reply, i))
    && s.ids.queue <= reply.state.ids.queue
    && HasTarget(c, s, r, replaying, reply)
  }

  lemma TurnQueues(c: Config, s: State, r: Request, now: int, replaying: bool, t: Turn)
    requires r.queue in s.queues && !r.kind.DeclareQueue?
    requires Evolved(c, s, now, r, replaying, t)
    ensures QueuesAfter(c, s, r, replaying, AfterTurn(s, r, now, t))
  {
    hide Worked, Installed, Kept;
    var reply := AfterTurn(s, r, now, t);
    forall i | i in s.queues ensures Handled(c, s, r, replaying, reply, i) {
      KeptSelf(c, r, s.queues[i]);
    }
  }

  lemma InstallQueues(c: Config, s: State, now: int, r: Request, journal: Journal, replaying: bool)
    requires Numbered(s) && Check(r).Ok? && r.kind.DeclareQueue? && r.payload.DeclarePayload?
    requires CheckDeclaration(c, s, r, replaying).Took? && r.payload.resource in s.resources
    ensures QueuesAfter(c, s, r, replaying, Reply(Install(c, s, now, r, journal, replaying), Took))
  {
    hide Worked, CheckDeclaration, Remembered, Check, Machine.NewQueue, Score, Provenances.Observe, Kept;
    var reply := Reply(Install(c, s, now, r, journal, replaying), Took);
    forall i | i in s.queues ensures Handled(c, s, r, replaying, reply, i) {
      KeptSelf(c, r, s.queues[i]);
    }
  }

  /** A refused or repeated mutation that touches no queue. */
  lemma UntouchedQueues(c: Config, s: State, r: Request, replaying: bool, reply: Reply)
    requires !reply.verdict.Took? && reply.state.queues == s.queues && reply.state.ids == s.ids
    ensures QueuesAfter(c, s, r, replaying, reply)
  {
    hide Worked, Installed, Kept;
    forall i | i in s.queues ensures Handled(c, s, r, replaying, reply, i) {
      KeptSelf(c, r, s.queues[i]);
    }
  }

  lemma DeclareQueues(c: Config, s: State, now: int, r: Request, io: Io, replaying: bool)
    requires Numbered(s) && Check(r).Ok? && r.kind.DeclareQueue? && r.payload.DeclarePayload?
    ensures QueuesAfter(c, s, r, replaying, ApplyDeclare(c, s, now, r, io, replaying))
  {
    hide QueuesAfter, CheckDeclaration, Commit, Check, Install, Score;
    var reply := ApplyDeclare(c, s, now, r, io, replaying);
    if reply.verdict.Took? {
      TakenHasResource(c, s, r, replaying);
      InstallQueues(c, s, now, r, Commit(c, s.journal, r, io).journal, replaying);
    } else {
      UntouchedQueues(c, s, r, replaying, reply);
    }
  }

  lemma TakenHasResource(c: Config, s: State, r: Request, replaying: bool)
    requires r.payload.DeclarePayload? && CheckDeclaration(c, s, r, replaying).Took?
    ensures r.payload.resource in s.resources
  {
  }

  lemma ApplyQueues(c: Config, s: State, r: Request, clock: int, io: Io, replaying: bool)
    requires Numbered(s)
    ensures QueuesAfter(c, s, r, replaying, Apply(c, s, r, clock, io, replaying))
  {
    hide QueuesAfter, Evolved, ApplyDeclare, ApplyExisting, AfterTurn, Check;
    var now := Later(s.watermark, clock);
    if s.shuttingDown || !Check(r).Ok? || (!r.kind.DeclareQueue? && r.queue !in s.queues) {
      UntouchedQueues(c, s, r, replaying, Apply(c, s, r, clock, io, replaying));
    } else if r.kind.DeclareQueue? {
      assert PayloadMatches(r.kind, r.payload);
      DeclareQueues(c, s, now, r, io, replaying);
    } else {
      assert PayloadMatches(r.kind, r.payload);
      ExistingEvolves(c, s, now, r, io, replaying);
      TurnQueues(c, s, r, now, replaying, ApplyExisting(c, s, now, r, io, replaying));
    }
  }

  // ---- the rest of the state after one mutation -----------------------------

  /** The journal only grows, and flushing covers all of it. */
  predicate Appends(j: Journal, k: Journal) {
    && k.headerEpoch == j.headerEpoch
    && |j.records| <= |k.records| && k.records[..|j.records|] == j.records
    && (k.synced == j.synced || k.synced == |k.records|)
  }

  function Added(j: Journal, k: Journal): seq<Record>
    requires |j.records| <= |k.records|
  {
    k.records[|j.records|..]
  }

  /** A durable mutation that was taken is announced and committed; any other
      leaves at most a trace of a failed attempt to do so. */
  predicate Journalled(c: Config, j: Journal, k: Journal, r: Request, io: Io, took: bool) {
    && Appends(j, k)
    && var added := Added(j, k);
      && (added == [] || added == [BeginAttempt(r)] || added == [BeginAttempt(r), CommitMutation(r)])
      && (added != [] ==> c.hasJournal && Durable(r.kind) && Encodable(r))
      && (took && c.hasJournal && Durable(r.kind) ==> added == [BeginAttempt(r), CommitMutation(r)] && k.synced == |k.records|)
      && (!took && io.Good? ==> added == [])
  }

  lemma CommitJournals(c: Config, j: Journal, r: Request, io: Io)
    requires Durable(r.kind)
    ensures Journalled(c, j, Commit(c, j, r, io).journal, r, io, Commit(c, j, r, io).code.Ok?)
  {
    hide Durable, Encodable;
    var k := Commit(c, j, r, io).journal;
    assert j.records + [BeginAttempt(r)] + [CommitMutation(r)] == j.records + [BeginAttempt(r), CommitMutation(r)];
  }

  lemma UnchangedJournals(c: Config, j: Journal, r: Request, io: Io, took: bool)
    requires took ==> !Durable(r.kind)
    ensures Journalled(c, j, j, r, io, took)
  {
    hide Durable, Encodable;
  }

  /** A taken live mutation has used up its place in its sender's sequence. */
  predicate Heard(before: Provenances.Table, after: Provenances.Table, sender: Provenance, replaying: bool, took: bool) {
    || (after == before && (took ==> replaying))
    || (!replaying && Provenances.Classify(before, sender, MAX_PUBLISHERS).Accepted? && after == Provenances.Observe(before, sender))
  }

  predicate TurnRest(c: Config, s: State, r: Request, io: Io, replaying: bool, t: Turn) {
    && Heard(s.publishers, t.publishers, r.provenance, replaying, t.verdict.Took?)
    && s.ids.fence <= t.fence
    && Journalled(c, s.journal, t.journal, r, io, t.verdict.Took?)
  }

  lemma ExecuteRest(c: Config, s: State, now: int, publishers: Provenances.Table, r: Request, io: Io, replaying: bool)
    requires PayloadMatches(r.kind, r.payload)
    requires r.queue in s.queues && s.queues[r.queue].def.resource in s.resources
    requires if replaying then publishers == s.publishers else
      Provenances.Classify(s.publishers, r.provenance, MAX_PUBLISHERS).Accepted? && publishers == Provenances.Observe(s.publishers, r.provenance)
    ensures TurnRest(c, s, r, io, replaying, Execute(c, s, now, publishers, r, io))
  {
    hide Perform, Commit, Remembered, Durable, PayloadMatches, Journalled, Provenances.Classify, Provenances.Observe;
    if Durable(r.kind) {
      CommitJournals(c, s.journal, r, io);
    } else {
      UnchangedJournals(c, s.journal, r, io, true);
    }
    UnchangedJournals(c, s.journal, r, io, false);
  }

  lemma ExistingRest(c: Config, s: State, now: int, r: Request, io: Io, replaying: bool)
    requires PayloadMatches(r.kind, r.payload) && r.queue in s.queues
    ensures TurnRest(c, s, r, io, replaying, ApplyExisting(c, s, now, r, io, replaying))
  {
    hide Execute, Remembered, Allowed, CheckCurrent, Memos.Find, Provenances.Classify, Provenances.Observe, PayloadMatches, EffectOf,
      Journalled;
    UnchangedJournals(c, s.journal, r, io, false);
    var q := s.queues[r.queue];
    if Admitted(c, s, q, r, replaying) {
      var heard := if replaying then s.publishers else Provenances.Observe(s.publishers, r.provenance);
      ExecuteRest(c, s, now, heard, r, io, replaying);
    }
  }

  predicate SameButCount(r: Resource, next: Resource) {
    next == r.(queueCount := next.queueCount)
  }

  /** Mutations leave topology, epoch, plans and life-cycle of the fabric alone. */
  predicate RestAfter(c: Config, s: State, r: Request, clock: int, io: Io, replaying: bool, reply: Reply) {
    var next := reply.state;
    && next.healthy == s.healthy && next.shuttingDown == s.shuttingDown && next.epoch == s.epoch && next.boot == s.boot
    && next.incarnation == s.incarnation && next.plans == s.plans
    && next.watermark == Later(s.watermark, clock)
    && next.resources.Keys == s.resources.Keys
    && (forall i :: i in s.resources ==> SameButCount(s.resources[i], next.resources[i]))
    && next.ids == s.ids.(queue := next.ids.queue, fence := next.ids.fence) && s.ids.fence <= next.ids.fence
    && Heard(s.publishers, next.publishers, r.provenance, replaying, reply.verdict.Took?)
    && Journalled(c, s.journal, next.journal, r, io, reply.verdict.Took?)
  }

  lemma TurnLeavesRest(c: Config, s: State, r: Request, clock: int, io: Io, replaying: bool, t: Turn)
    requires TurnRest(c, s, r, io, replaying, t)
    ensures RestAfter(c, s, r, clock, io, replaying, AfterTurn(s, r, Later(s.watermark, clock), t))
  {
    hide Heard, Journalled;
  }

  /** A refused or repeated mutation changes counters and journal at most. */
  lemma RefusedLeavesRest(c: Config, s: State, r: Request, clock: int, io: Io, replaying: bool, j: Journal, tally: Tally, v: Verdict)
    requires Journalled(c, s.journal, j, r, io, false) && !v.Took?
    ensures RestAfter(c, s, r, clock, io, replaying,
      Reply(s.(watermark := Later(s.watermark, clock), journal := j, tally := tally), v))
  {
    hide Journalled, Later;
  }

  lemma InstallLeavesRest(c: Config, s: State, r: Request, clock: int, io: Io, replaying: bool, j: Journal)
    requires r.payload.DeclarePayload? && r.payload.resource in s.resources
    requires replaying || Provenances.Classify(s.publishers, r.provenance, MAX_PUBLISHERS).Accepted?
    requires Journalled(c, s.journal, j, r, io, true)
    ensures RestAfter(c, s, r, clock, io, replaying,
      Reply(Install(c, s, Later(s.watermark, clock), r, j, replaying), Took))
  {
    hide Journalled, Later, Remembered, Machine.NewQueue, Score, Provenances.Observe, Provenances.Classify;
  }

  lemma DeclareRest(c: Config, s: State, clock: int, r: Request, io: Io, replaying: bool)
    requires r.kind.DeclareQueue? && r.payload.DeclarePayload?
    ensures RestAfter(c, s, r, clock, io, replaying, ApplyDeclare(c, s, Later(s.watermark, clock), r, io, replaying))
  {
    hide CheckDeclaration, Commit, Score, Journalled, Later, Provenances.Classify, Install, RestAfter;
    var w := Commit(c, s.journal, r, io);
    CommitJournals(c, s.journal, r, io);
    if !CheckDeclaration(c, s, r, replaying).Took? {
      var v := CheckDeclaration(c, s, r, replaying);
      UnchangedJournals(c, s.journal, r, io, false);
      RefusedLeavesRest(c, s, r, clock, io, replaying, s.journal, Score(s.tally, v), v);
    } else if !w.code.Ok? {
      RefusedLeavesRest(c, s, r, clock, io, replaying, w.journal, Score(s.tally, Rejected(w.code)), Rejected(w.code));
    } else {
      TakenHasResource(c, s, r, replaying);
      TakenWasHeard(c, s, r, replaying);
      InstallLeavesRest(c, s, r, clock, io, replaying, w.journal);
    }
  }

  lemma TakenWasHeard(c: Config, s: State, r: Request, replaying: bool)
    requires r.payload.DeclarePayload? && CheckDeclaration(c, s, r, replaying).Took?
    ensures replaying || Provenances.Classify(s.publishers, r.provenance, MAX_PUBLISHERS).Accepted?
  {
  }

  lemma ApplyRest(c: Config, s: State, r: Request, clock: int, io: Io, replaying: bool)
    ensures RestAfter(c, s, r, clock, io, replaying, Apply(c, s, r, clock, io, replaying))
  {
    hide ApplyDeclare, ApplyExisting, AfterTurn, Check, Journalled, Later, TurnRest, Score, RestAfter;
    var checked := Check(r);
    if s.shuttingDown {
      UnchangedJournals(c, s.journal, r, io, false);
      RefusedLeavesRest(c, s, r, clock, io, replaying, s.journal, s.tally, Rejected(ShuttingDown));
    } else if !checked.Ok? {
      UnchangedJournals(c, s.journal, r, io, false);
      RefusedLeavesRest(c, s, r, clock, io, replaying, s.journal, Score(s.tally, Rejected(checked)), Rejected(checked));
    } else if r.kind.DeclareQueue? {
      assert PayloadMatches(r.kind, r.payload);
      DeclareRest(c, s, clock, r, io, replaying);
    } else if r.queue !in s.queues {
      UnchangedJournals(c, s.journal, r, io, false);
      RefusedLeavesRest(c, s, r, clock, io, replaying, s.journal, Score(s.tally, Rejected(NotFound)), Rejected(NotFound));
    } else {
      assert PayloadMatches(r.kind, r.payload);
      var now := Later(s.watermark, clock);
      ExistingRest(c, s, now, r, io, replaying);
      TurnLeavesRest(c, s, r, clock, io, replaying, ApplyExisting(c, s, now, r, io, replaying));
    }
  }

  // ---- one event ------------------------------------------------------------

  /** Identities in use are below the next one to be given out. */
  predicate Counted(s: State) {
    && Numbered(s)
    && (forall i :: i in s.resources ==> i < s.ids.resource && s.resources[i].id == i)
  }

  /** The mutation an event carries, if it carries one. */
  function RequestOf(s: State, e: Event): Option<Request> {
    match e
    case Mutate(r, _, _) => Some(r)
    case CommitApply(plan, applied, sender, _, _) => Some(AckRequest(plan, applied, s.epoch, sender))
    case _ => None
  }

  /** What a call that is not a mutation does to a queue. */
  predicate Marked(c: Config, s: State, e: Event, next: State, i: Id)
    requires i in s.queues
  {
    && i in next.queues
    && var q, q' := s.queues[i], next.queues[i];
      || q' == q
      || (e.NewClass? && e.resource in s.resources &&
          q' == Unbound(q, e.resource, NextClass(s, e.resource, e.name, e.priority, e.qos, e.sender)))
      || (e.NewEpoch? && next.epoch == s.epoch + 1 && q' == Superseded(q))
      || (e.Discredit? && i == e.queue && q' == Discredited(q))
      || (e.RefreshAll? && q' == Refreshed(c, q, next.watermark))
  }

  predicate QueueStep(c: Config, s: State, e: Event, reply: Reply, i: Id)
    requires i in s.queues
  {
    match RequestOf(s, e)
    case Some(r) => Handled(c, s, r, false, reply, i)
    case None => Marked(c, s, e, reply.state, i)
  }

  predicate QueueSteps(c: Config, s: State, e: Event, reply: Reply) {
    && (forall i :: i in s.queues ==> QueueStep(c, s, e, reply, i))
    && (forall i :: i in reply.state.queues ==> i in s.queues || (e.Mutate? && Installed(c, s, e.request, false, reply, i)))
    && s.ids.queue <= reply.state.ids.queue
    && (RequestOf(s, e).Some? ==> HasTarget(c, s, RequestOf(s, e).value, false, reply))
  }

  /** Backends are only ever added alive under a new identity, or buried. */
  predicate BackendsStep(s: State, e: Event, earlier: seq<Backend>, next: seq<Backend>) {
    || next == earlier
    || (e.NewBackend? && |next| == |earlier| + 1 && next[..|earlier|] == earlier &&
        next[|earlier|].id == s.ids.backend && next[|earlier|].alive)
    || (e.BackendDied? && next == Bury(earlier, e.backend))
  }

  predicate ResourceStep(s: State, e: Event, next: State, i: Id)
    requires i in s.resources
  {
    && i in next.resources
    && var r, r' := s.resources[i], next.resources[i];
      && r'.id == r.id && r'.name == r.name
      && r'.epoch == (if next.epoch == s.epoch then r.epoch else next.epoch)
      && r'.authority.epoch == (if next.epoch == s.epoch then r.authority.epoch else next.epoch)
      && BackendsStep(s, e, r.backends, r'.backends)
      && (e.NewBackend? && r'.backends != r.backends ==> next.ids.backend == s.ids.backend + 1)
      && (e.NewClass? || r'.classes == r.classes)
      && (e.NewPool? || r'.pools == r.pools)
      && (e.GrantTo? || r'.authority.grants == r.authority.grants)
      && (e.Mutate? || r'.queueCount == r.queueCount)
  }

  predicate ResourceSteps(s: State, e: Event, next: State) {
    && (forall i :: i in s.resources ==> ResourceStep(s, e, next, i))
    && (forall i :: i in next.resources && i !in s.resources ==>
        && e.NewResource? && i == s.ids.resource && next.ids.resource == i + 1 && next.resources[i].id == i
        && next.resources[i].epoch == s.epoch && next.resources[i].authority.epoch == s.epoch
        && next.resources[i].backends == [] && next.resources[i].queueCount == 0)
    && s.ids.resource <= next.ids.resource && s.ids.backend <= next.ids.backend
  }

  predicate CoreStep(s: State, e: Event, next: State) {
    && (next.epoch == s.epoch || (e.NewEpoch? && next.epoch == s.epoch + 1))
    && next.boot == s.boot && next.incarnation == s.incarnation
    && s.watermark <= next.watermark
  }

  /** Commit records carry durable mutations and plan markers only. */
  predicate CommitKind(k: Kind) {
    Durable(k) || k.AcknowledgeBackend? || k.NoOp?
  }

  predicate RecordStep(s: State, e: Event, rec: Record) {
    match rec
    case ResourceState(r) => r.backends == [] || (r.id in s.resources && BackendsStep(s, e, s.resources[r.id].backends, r.backends))
    case QueueState(_) => false
    case CommitMutation(r) => CommitKind(r.kind)
    case EpochState(_, epoch, _) => epoch <= s.epoch + 1
    case _ => true
  }

  /** Outside compaction the journal only grows, and a new epoch is on stable
      storage before it counts. */
  predicate JournalStep(c: Config, s: State, e: Event, next: State) {
    if e.CompactJournal? then
      next.journal == s.journal || next.journal == s.journal.(records := Snapshot(s), synced := |Snapshot(s)|)
    else
      && Appends(s.journal, next.journal)
      && (forall k :: |s.journal.records| <= k < |next.journal.records| ==> RecordStep(s, e, next.journal.records[k]))
      && (c.hasJournal && next.epoch != s.epoch ==>
          |next.journal.records| == |s.journal.records| + 1 && next.journal.synced == |next.journal.records| &&
          next.journal.records[|s.journal.records|] == EpochState(s.boot, next.epoch, s.incarnation))
  }

  ghost predicate Delta(c: Config, s: State, e: Event, reply: Reply) {
    && QueueSteps(c, s, e, reply)
    && ResourceSteps(s, e, reply.state)
    && CoreStep(s, e, reply.state)
    && JournalStep(c, s, e, reply.state)
  }
}
