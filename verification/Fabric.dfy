/** The fabric object: the mutable engine behind the state machine. Each method
    is one public call or one stage of it, and leaves exactly the state its
    machine function says. */
module FabricObject {
  import opened Status
  import opened Entities
  import opened Lifecycles
  import opened Authorities
  import opened Mutations
  import opened Work
  import opened Machine
  import opened Recovery
  import opened Extremes
  import Occupancies
  import Policies
  import Provenances
  import Memos
  import MemoLog
  import Backends
  import Drains
  import Steps

  /** Looks an attempt up in a queue's memo. */
  method FindAttempt(memo: seq<Memo>, a: Attempt) returns (found: Option<Memo>)
    ensures found == Memos.Find(memo, a)
  {
    found := None;
    var k := 0;
    while k < |memo| && found.None?
      invariant k <= |memo|
      invariant found.None? ==> Memos.Find(memo, a) == Memos.Find(memo[k..], a)
      invariant found.Some? ==> Memos.Find(memo, a) == found
    {
      assert memo[k..][1..] == memo[k + 1..];
      if memo[k].attempt == a {
        found := Some(memo[k]);
      }
      k := k + 1;
    }
  }

  /** The first live registration of a backend. */
  method FindLiveBackend(backends: seq<Backend>, id: Id) returns (live: Option<Backend>)
    ensures live == Backends.FindLive(backends, id)
  {
    live := None;
    var k := 0;
    while k < |backends| && id != 0 && live.None?
      invariant k <= |backends|
      invariant live.None? ==> Backends.FindLive(backends, id) == Backends.FindLive(backends[k..], id)
      invariant live.Some? ==> Backends.FindLive(backends, id) == live
    {
      assert backends[k..][1..] == backends[k + 1..];
      if backends[k].id == id && backends[k].alive {
        live := Some(backends[k]);
      }
      k := k + 1;
    }
  }

  /** The greatest member of a set of identities, or zero. */
  method MaxOf(ids: set<nat>) returns (m: nat)
    ensures m == Greatest(ids)
  {
    m := 0;
    var todo := ids;
    while todo != {}
      invariant todo <= ids
      invariant forall i :: i in ids && i !in todo ==> i <= m
      invariant m == 0 || m in ids
      decreases todo
    {
      var i :| i in todo;
      if i > m {
        m := i;
      }
      todo := todo - {i};
    }
    assert ids != {} && m == 0 ==> 0 in ids by {
      if ids != {} && m == 0 {
        var i :| i in ids;
      }
    }
    GreatestUnique(m, ids);
  }

  // ---- the kinds of mutation ------------------------------------------------

  /** A stage's answer: the worked record, or a code and the record as it was. */
  predicate Answers(w: Result, q: Queue, code: Code, target: Queue) {
    match w
    case Done(next, _) => code.Ok? && target == next
    case Refused(refusal) => code == refusal && !code.Ok? && target == q
  }

  function Drawn(w: Result): nat {
    if w.Done? then w.tokens else 0
  }

  method InvalidateForDefinition(q: Queue) returns (target: Queue)
    ensures target == Stale(q).(occupancy := Occupancies.Invalidate(q.occupancy, StaleGenerationSeen), applied := q.applied.(known := false))
  {
    target := q.(flags := q.flags.(stale := true));
    target := target.(occupancy := Occupancies.Invalidate(target.occupancy, StaleGenerationSeen));
    target := target.(applied := target.applied.(known := false));
  }

  method ValidateOrActivate(env: Env, q: Queue, to: Lifecycle) returns (code: Code, target: Queue)
    requires to.Validated? || to.Active?
    ensures Answers(if to.Validated? then Validate(env, q) else Activate(env, q), q, code, target)
  {
    hide CheckBinding;
    code, target := Ok, q;
    if q.lifecycle != to {
      code := CheckTransition(q.lifecycle, to);
      if code.Ok? {
        code := CheckBinding(env.resource.classes, q.def.cls);
      }
      if code.Ok? && to.Active? && !q.def.thresholds.Consistent() {
        code := InvalidArgument;
      }
      if code.Ok? {
        target := target.(lifecycle := to);
      }
    }
  }

  /** Publishes a changed definition under the next generation. */
  method NextGeneration(q: Queue, def: Definition) returns (code: Code, target: Queue)
    ensures Answers(Redefine(q, def), q, code, target)
  {
    hide Occupancies.Invalidate;
    code, target := Ok, q;
    if q.def.generation == COUNTER_MAX {
      code := CapacityExceeded;
    } else {
      target := InvalidateForDefinition(q);
      target := target.(def := def.(generation := q.def.generation + 1));
    }
  }

  method RebindNow(env: Env, q: Queue, binding: ClassBinding) returns (code: Code, target: Queue)
    ensures Answers(Rebind(env, q, binding), q, code, target)
  {
    hide Redefine, CheckBinding;
    target := q;
    code := CheckBinding(env.resource.classes, binding);
    if code.Ok? && q.def.cls != binding {
      code, target := NextGeneration(q, q.def.(cls := binding));
    }
  }

  method SetLimitsNow(q: Queue, limits: Thresholds) returns (code: Code, target: Queue)
    ensures Answers(Work.SetLimits(q, limits), q, code, target)
  {
    hide Redefine;
    target := q;
    code := if limits.Consistent() then Ok else InvalidArgument;
    if code.Ok? && limits != q.def.thresholds {
      code, target := NextGeneration(q, q.def.(thresholds := limits));
    }
  }

  method TransferNow(q: Queue, owner: Id) returns (code: Code, target: Queue)
    ensures Answers(Transfer(q, owner), q, code, target)
  {
    hide Redefine;
    code, target := Ok, q;
    if owner != q.def.owner {
      code, target := NextGeneration(q, q.def.(owner := owner));
    }
  }

  /** The stored observation is replaced field by field once every check passed. */
  method IngestSample(c: Config, env: Env, q: Queue, s: Sample, expectedEpoch: nat) returns (code: Code, target: Queue)
    ensures Answers(Ingest(c, env, q, s, expectedEpoch), q, code, target)
  {
    hide QueuePolicy;
    code, target := Ok, q;
    var policy := QueuePolicy(c, q.def);
    if s.queue != q.def.id {
      code := InvalidArgument;
    } else if s.generation != q.def.generation {
      code := StaleGeneration;
    } else if expectedEpoch != env.epoch || s.epoch != env.epoch {
      code := StaleEpoch;
    } else if s.observedAt > env.now && policy.maxFutureSkew > 0 && s.observedAt - env.now > policy.maxFutureSkew {
      code := StaleOccupancy;
    } else if SameLife(q.occupancy, s) && s.sequence <= q.occupancy.sequence {
      code := StaleOccupancy;
    } else {
      var o := q.occupancy.(present := true, bytes := s.bytes, packets := s.packets, observedAt := s.observedAt);
      o := o.(sequence := s.sequence, epoch := s.epoch, provenance := s.provenance, generation := s.generation);
      o := o.(freshness := Fresh, age := Occupancies.AgeAt(env.now, s.observedAt));
      target := target.(occupancy := o, flags := target.flags.(stale := false));
      if target.drain.InProgress() {
        var evidence := target.drain.evidence;
        if s.bytes == 0 && s.packets == 0 {
          evidence := evidence.(zeroObserved := true, zeroObservedAt := s.observedAt, zeroSequence := s.sequence);
        } else if evidence.zeroObserved {
          evidence := evidence.(zeroObserved := false);
        }
        target := target.(drain := target.drain.(evidence := evidence));
      }
    }
  }

  method ChangeDrain(env: Env, q: Queue, r: Request) returns (code: Code, target: Queue)
    requires r.kind.RequestDrain? || r.kind.CancelDrain?
    ensures Answers(if r.kind.RequestDrain? then BeginDrain(env, q, r) else EndDrain(q), q, code, target)
  {
    code, target := Ok, q;
    if r.kind.RequestDrain? {
      if !q.lifecycle.Draining? {
        code := CheckTransition(q.lifecycle, Draining);
        if code.Ok? {
          var drain := NO_DRAIN.(phase := Requested, attempt := r.attempt, requestedAt := env.now, requestedBy := r.provenance);
          target := target.(lifecycle := Draining, drain := drain);
        }
      }
    } else if !q.lifecycle.Draining? {
      code := DrainIncomplete;
    } else {
      target := target.(lifecycle := Active, drain := NO_DRAIN);
    }
  }

  method SubmitDrain(c: Config, env: Env, q: Queue, e: Evidence) returns (code: Code, target: Queue)
    ensures Answers(Submit(c, env, q, e), q, code, target)
  {
    hide Backends.FindLive;
    code, target := Ok, q;
    var live := FindLiveBackend(env.resource.backends, e.backend.backend);
    if !q.drain.InProgress() {
      code := DrainIncomplete;
    } else if e.records == 0 {
      code := InvalidArgument;
    } else if e.records > c.policy.maxEvidence {
      code := OutOfRange;
    } else if e.backend.backend != 0 && (live.None? || live.value.incarnation != e.backend.incarnation) {
      code := StaleIncarnation;
    } else if e.backend.epoch != 0 && e.backend.epoch != env.epoch {
      code := StaleEpoch;
    } else {
      var drain := q.drain.(evidence := e.(revalidated := true), phase := EvidencePending);
      target := target.(drain := drain);
    }
  }

  method QuiesceNow(c: Config, env: Env, q: Queue) returns (code: Code, target: Queue)
    ensures Answers(Quiesce(c, env, q), q, code, target)
  {
    hide Backends.FindLive, Backends.Verify, Drains.Assess, QueuePolicy;
    code, target := Ok, q;
    if !q.lifecycle.Quiesced? {
      code := CheckTransition(q.lifecycle, Quiesced);
      if code.Ok? {
        var live := FindLiveBackend(env.resource.backends, q.drain.evidence.backend.backend);
        code := Drains.Assess(q.drain, q.occupancy, live, env.epoch, QueuePolicy(c, q.def), env.now);
        if code.Ok? && c.policy.requireAck {
          if live.None? {
            code := StaleIncarnation;
          } else if !Backends.Verify(q.applied, live.value, env.epoch, q.def.generation, q.def.cls).Ok? {
            code := BackendMismatch;
          }
        }
        if code.Ok? {
          target := target.(lifecycle := Quiesced, drain := target.drain.(phase := Completed));
        }
      }
    }
  }

  method FailOrRetire(q: Queue, r: Request) returns (code: Code, target: Queue)
    requires r.kind.FailQueue? ==> r.payload.FencePayload?
    requires r.kind.FailQueue? || r.kind.RetireQueue?
    ensures r.kind.FailQueue? ==> Answers(Work.Fail(q, r.payload.reason), q, code, target)
    ensures r.kind.RetireQueue? ==> Answers(Retire(q), q, code, target)
  {
    hide Bounded;
    code, target := Ok, q;
    var to := if r.kind.FailQueue? then Failed else Retired;
    if q.lifecycle != to {
      code := CheckTransition(q.lifecycle, to);
      if code.Ok? {
        target := target.(lifecycle := to);
        if r.kind.FailQueue? {
          target := target.(failure := Bounded(r.payload.reason));
        } else {
          target := target.(occupancy := NO_OCCUPANCY, drain := NO_DRAIN, flags := Flags(false, false));
        }
      }
    }
  }

  method AcceptAck(env: Env, q: Queue, a: Applied) returns (code: Code, target: Queue)
    ensures Answers(Acknowledge(env, q, a), q, code, target)
  {
    hide Backends.FindLive, Backends.Verify;
    code, target := Ok, q;
    var live := FindLiveBackend(env.resource.backends, a.backend);
    if !a.known || a.backend == 0 {
      code := InvalidArgument;
    } else if live.None? {
      code := StaleIncarnation;
    } else {
      code := Backends.Verify(a, live.value, env.epoch, q.def.generation, q.def.cls);
      if code.Ok? {
        target := target.(applied := a, flags := target.flags.(stale := false));
      }
    }
  }

  // ---- the machine does not look at its own watermark -----------------------

  lemma ExecuteIgnoresClock(c: Config, s: State, w: int, now: int, publishers: Provenances.Table, r: Request, io: Io)
    requires PayloadMatches(r.kind, r.payload)
    requires r.queue in s.queues && s.queues[r.queue].def.resource in s.resources
    ensures Execute(c, s.(watermark := w), now, publishers, r, io) == Execute(c, s, now, publishers, r, io)
  {
    hide Perform, Commit, Remembered, Durable, PayloadMatches;
  }

  /** Nor do the work's effects depend on who has been heard. */
  lemma ExecuteIgnoresSenders(c: Config, s: State, publishers: Provenances.Table, now: int, r: Request, io: Io)
    requires PayloadMatches(r.kind, r.payload)
    requires r.queue in s.queues && s.queues[r.queue].def.resource in s.resources
    ensures Execute(c, s.(publishers := publishers), now, publishers, r, io) == Execute(c, s, now, publishers, r, io)
  {
    hide Perform, Commit, Remembered, Durable, PayloadMatches;
  }

  lemma ExecuteHeard(c: Config, s: State, publishers: Provenances.Table, now: int, r: Request, io: Io)
    requires PayloadMatches(r.kind, r.payload)
    requires r.queue in s.queues && s.queues[r.queue].def.resource in s.resources
    ensures Execute(c, s, now, publishers, r, io).publishers == publishers
  {
    hide Perform, Commit, Remembered, Durable, PayloadMatches;
  }

  lemma InstallOverJournal(c: Config, s: State, now: int, r: Request, j: Journal, replaying: bool)
    requires r.payload.DeclarePayload? && r.payload.resource in s.resources
    ensures Install(c, s.(journal := j), now, r, j, replaying) == Install(c, s, now, r, j, replaying)
  {
    hide Remembered, NewQueue, Provenances.Observe;
  }

  function OneMoreQueue(r: Resource): Resource {
    r.(queueCount := r.queueCount + 1)
  }

  lemma InstallIs(c: Config, s: State, now: int, r: Request, replaying: bool, next: State)
    requires r.payload.DeclarePayload? && r.payload.resource in s.resources
    requires next.healthy == s.healthy && next.shuttingDown == s.shuttingDown && next.epoch == s.epoch && next.boot == s.boot
    requires next.incarnation == s.incarnation && next.plans == s.plans && next.watermark == now
    requires next.publishers == if replaying then s.publishers else Provenances.Observe(s.publishers, r.provenance)
    requires next.ids == s.ids.(queue := s.ids.queue + 1) && next.tally == Score(s.tally, Took)
    requires next.resources == s.resources[r.payload.resource := OneMoreQueue(s.resources[r.payload.resource])]
    requires next.names == s.names[NameKey(r.payload.resource, r.payload.name) := s.ids.queue]
    requires next.queues == s.queues[s.ids.queue := Remembered(c, NewQueue(r, s.ids.queue, now), r, Ok, c.hasJournal)]
    ensures next == Install(c, s, now, r, next.journal, replaying)
  {
    hide Remembered, NewQueue, Provenances.Observe;
  }

  lemma ExistingIgnoresClock(c: Config, s: State, w: int, now: int, r: Request, io: Io, replaying: bool)
    requires PayloadMatches(r.kind, r.payload) && r.queue in s.queues
    ensures Machine.ApplyExisting(c, s.(watermark := w), now, r, io, replaying) == Machine.ApplyExisting(c, s, now, r, io, replaying)
  {
    hide Execute, Remembered, Admit, Memos.Find, PayloadMatches, EffectOf;
    var q := s.queues[r.queue];
    AdmissionIgnoresClock(s, w, q, r, replaying);
    if Admit(s, q, r, replaying).code.Ok? {
      AdmittedHasResource(s, q, r, replaying);
      ExecuteIgnoresClock(c, s, w, now, Admit(s, q, r, replaying).heard, r, io);
    }
  }

  lemma AdmissionIgnoresClock(s: State, w: int, q: Queue, r: Request, replaying: bool)
    ensures Admit(s.(watermark := w), q, r, replaying) == Admit(s, q, r, replaying)
  {
    hide Allowed, CheckCurrent, Provenances.Classify, Provenances.Observe;
  }

  lemma AdmittedHasResource(s: State, q: Queue, r: Request, replaying: bool)
    requires Admit(s, q, r, replaying).code.Ok?
    ensures q.def.resource in s.resources
  {
    hide Allowed, CheckCurrent, Provenances.Classify, Provenances.Observe;
  }

  lemma DeclarationIgnoresClock(c: Config, s: State, w: int, r: Request, replaying: bool)
    requires r.payload.DeclarePayload?
    ensures CheckDeclaration(c, s.(watermark := w), r, replaying) == CheckDeclaration(c, s, r, replaying)
  {
    hide QueuesOf, FindClass, FindPool, Provenances.Classify, Holds, CapabilitiesOf;
  }

  lemma DeclareIgnoresClock(c: Config, s: State, w: int, now: int, r: Request, io: Io, replaying: bool)
    requires r.payload.DeclarePayload?
    ensures Machine.ApplyDeclare(c, s.(watermark := w), now, r, io, replaying) == Machine.ApplyDeclare(c, s, now, r, io, replaying)
  {
    hide CheckDeclaration, Commit, Score, Remembered, NewQueue, Provenances.Observe;
    DeclarationIgnoresClock(c, s, w, r, replaying);
    if CheckDeclaration(c, s, r, replaying).Took? {
      DeclaredResource(c, s, r, replaying);
    }
  }

  lemma DeclaredResource(c: Config, s: State, r: Request, replaying: bool)
    requires r.payload.DeclarePayload? && CheckDeclaration(c, s, r, replaying).Took?
    ensures r.payload.resource in s.resources
  {
    hide CheckPlacement, Provenances.Classify;
  }

  /** How a checked declaration ends, by what the journal says. */
  lemma DeclareOutcome(c: Config, s: State, now: int, r: Request, io: Io, replaying: bool)
    requires r.payload.DeclarePayload? && r.payload.resource in s.resources && CheckDeclaration(c, s, r, replaying).Took? && s.watermark == now
    ensures var w := Commit(c, s.journal, r, io);
      Machine.ApplyDeclare(c, s, now, r, io, replaying) ==
        if w.code.Ok? then Reply(Install(c, s, now, r, w.journal, replaying), Took)
        else Reply(s.(journal := w.journal, tally := Score(s.tally, Rejected(w.code))), Rejected(w.code))
  {
    hide CheckDeclaration, Commit, Install, Score;
  }

  lemma InsistingIsPlain(c: Config)
    ensures c.(durable := c.durable && true) == c
  {
  }

  lemma AdvanceOutcome(c: Config, s: State, principal: Id, sender: Provenance, clock: int, io: Io)
    ensures var checked := CheckAdvance(s, principal, sender);
      var w := Persist(c.(durable := c.durable && true), s.journal, EpochState(s.boot, s.epoch + 1, s.incarnation), io);
      AdvanceEpoch(c, s, principal, sender, clock, io) ==
        if !checked.Ok? then Reply(s, Rejected(checked))
        else if !w.code.Ok? then Reply(s.(journal := w.journal, healthy := s.healthy && !(c.hasJournal && io.SyncFails?)), Rejected(w.code))
        else Reply(
          s.(journal := w.journal, healthy := s.healthy && !(c.hasJournal && io.SyncFails?), epoch := s.epoch + 1,
             resources := AllInEpoch(s.resources, s.epoch + 1), queues := AllSuperseded(s.queues), watermark := Later(s.watermark, clock)), Took)
  {
    hide CheckAdvance, AllSuperseded, AllInEpoch;
    InsistingIsPlain(c);
  }

  lemma DistrustTwice(q: Queue)
    ensures Distrusted(Distrusted(q, false), true) == Distrusted(q, true) && Distrusted(Distrusted(q, true), true) == Distrusted(q, true)
  {
  }

  /** An index in which every name stands for its least bearer. */
  lemma NamesAreLeast(names: map<NameKey, Id>, bearers: map<NameKey, Id>, queues: map<Id, Queue>)
    requires names.Keys == bearers.Keys && forall k :: k in bearers ==> bearers[k] in queues && KeyOf(queues[bearers[k]]) == k
    requires forall k :: k in bearers ==> names[k] == queues[bearers[k]].def.id
    requires forall j :: j in queues ==> KeyOf(queues[j]) in bearers && bearers[KeyOf(queues[j])] <= j
    ensures names == NamesOf(queues)
  {
    hide KeyOf;
    var index := NamesOf(queues);
    forall k | k in names ensures k in index && index[k] == names[k] {
      assert bearers[k] in Bearers(queues, k);
    }
    forall k | k in index ensures k in names {
      var i :| i in queues && KeyOf(queues[i]) == k;
    }
  }

  lemma AdoptedInTwoSteps(resources: map<Id, Resource>, epoch: nat)
    ensures AllInEpoch(AllLifeless(resources), epoch) == AllAdopted(resources, epoch)
  {
    hide InEpoch, Lifeless;
  }

  // ---- recovering over what is held -----------------------------------------

  function RestoredOver(s: State, l: Loaded, boot: Boot): State {
    s.(boot := boot, epoch := 1, incarnation := 1, queues := s.queues + l.queues, resources := AllLifeless(s.resources + l.resources))
  }

  function EnteredLife(s: State, l: Loaded): State {
    Rebuild(s.(epoch := NextEpoch(l.epoch), incarnation := l.incarnation, resources := AllInEpoch(s.resources, NextEpoch(l.epoch))))
  }

  /** Recovery reads its records over whatever the fabric holds. */
  function RecoverOver(c: Config, s: State, boot: Boot, feed: seq<Moment>, clock: int): Reply {
    if !c.hasJournal then Reply(s.(boot := boot, epoch := 1, incarnation := 1, healthy := true), Took)
    else
      var l := Load(s.journal.records, s.journal.headerEpoch);
      var restored := RestoredOver(s, l, boot);
      if l.epoch == COUNTER_MAX then Reply(restored.(healthy := false), Rejected(CapacityExceeded))
      else
        var done := Announce(Rebuild(Distrust(Replay(c, EnteredLife(restored, l), l.order, feed), l.outstanding)));
        Reply(done.(healthy := true, watermark := Later(done.watermark, clock)), Took)
  }

  lemma EntersBase(l: Loaded, j: Journal, boot: Boot, other: Boot)
    ensures EnteredLife(RestoredOver(Blank(other).(journal := j), l, boot), l) == Base(l, j, boot)
    ensures RestoredOver(Blank(other).(journal := j), l, boot) ==
      Blank(boot).(journal := j, queues := l.queues, resources := AllLifeless(l.resources))
  {
    hide Rebuild, AllInEpoch, AllLifeless, AllAdopted;
    AdoptedInTwoSteps(l.resources, NextEpoch(l.epoch));
    var none: map<Id, Resource> := map[];
    var idle: map<Id, Queue> := map[];
    assert none + l.resources == l.resources && idle + l.queues == l.queues;
  }

  lemma {:induction false} ReplayHealthy(c: Config, s: State, order: seq<Request>, feed: seq<Moment>)
    ensures Replay(c, s, order, feed).healthy == s.healthy
  {
    hide Apply, Steps.Heard, Steps.Journalled, Steps.SameButCount;
    if order != [] {
      var n := |order| - 1;
      ReplayHealthy(c, s, order[..n], feed);
      Steps.ApplyRest(c, Replay(c, s, order[..n], feed), order[n], MomentAt(feed, n).clock, MomentAt(feed, n).io, true);
    }
  }

  /** The first recovery of a fabric is the recovery of the state machine. */
  lemma FirstRecovery(c: Config, j: Journal, other: Boot, boot: Boot, feed: seq<Moment>, clock: int)
    requires c.hasJournal || j == Journal([], 0, 0)
    ensures RecoverOver(c, Blank(other).(journal := j), boot, feed, clock) == Recover(c, j, boot, feed, clock)
  {
    hide Load, Base, EnteredLife, RestoredOver, Replay, Rebuild, Distrust, AllLifeless;
    if c.hasJournal {
      var l := Load(j.records, j.headerEpoch);
      EntersBase(l, j, boot, other);
      var base := Base(l, j, boot);
      ReplayHealthy(c, base, l.order, feed);
      StaysHealthy(base, Replay(c, base, l.order, feed), l, j, boot);
    }
  }

  lemma StaysHealthy(base: State, s: State, l: Loaded, j: Journal, boot: Boot)
    requires base == Base(l, j, boot) && s.healthy == base.healthy
    ensures Rebuild(Distrust(s, l.outstanding)).healthy
  {
    hide NamesOf, AllCounted, FreshIds, AllAdopted, AllDistrusted;
  }

  /** The records are read once, in file order. */
  method LoadRecords(records: seq<Record>, headerEpoch: nat) returns (l: Loaded)
    ensures l == Load(records, headerEpoch)
  {
    hide StorableQueue, StorableResource, Restored, Decodable;
    l := Loaded(headerEpoch, 1, map[], map[], map[], []);
    for k := 0 to |records|
      invariant l == Load(records[..k], headerEpoch)
    {
      assert records[..k + 1][..k] == records[..k];
      match records[k] {
        case EpochState(_, epoch, incarnation) =>
          if epoch > l.epoch {
            l := l.(epoch := epoch);
          }
          l := l.(incarnation := incarnation + 1);
        case ResourceState(r) =>
          if StorableResource(r) {
            l := l.(resources := l.resources[r.id := r]);
          }
        case QueueState(q) =>
          if StorableQueue(q) {
            l := l.(queues := l.queues[q.def.id := Restored(q)]);
          }
        case BeginAttempt(r) =>
          if Decodable(r) {
            l := l.(outstanding := l.outstanding[r.attempt := r]);
          }
        case CommitMutation(r) =>
          if Decodable(r) {
            l := l.(outstanding := l.outstanding - {r.attempt}, order := l.order + [r]);
          }
      }
    }
    assert records[..|records|] == records;
  }

  /** Identities in ascending order, least first. */
  method Sort(ids: set<Id>) returns (order: seq<Id>)
    ensures order == Ascending(ids)
  {
    order := [];
    var todo := ids;
    while todo != {}
      invariant order + Ascending(todo) == Ascending(ids)
      decreases todo
    {
      var i := Least(todo);
      assert order + ([i] + Ascending(todo - {i})) == order + [i] + Ascending(todo - {i});
      order := order + [i];
      todo := todo - {i};
    }
  }

  lemma ReserveOutcome(c: Config, s: State, queue: Id, expected: nat, principal: Id, sender: Provenance, clock: int, io: Io)
    ensures var checked := CheckReservation(c, s, queue, expected, principal, sender);
      && (!checked.Ok? ==> Reserve(c, s, queue, expected, principal, sender, clock, io) == Reply(s, Rejected(checked)))
      && (checked.Ok? ==>
        && queue in s.queues && expected == s.queues[queue].def.generation
        && var now := Later(s.watermark, clock);
          var plan := NewPlan(c, s, queue, principal, sender, now);
          var w := Persist(c.(durable := c.durable && true), s.journal, BeginAttempt(AckRequest(plan, NOT_APPLIED, plan.epoch, sender)), io);
          var well := s.healthy && !(c.hasJournal && io.SyncFails?);
          var heard := Provenances.Observe(s.publishers, sender);
          Reserve(c, s, queue, expected, principal, sender, clock, io) ==
            if plan.attempt in s.plans then Reply(s.(watermark := now), Rejected(Conflict))
            else if !w.code.Ok? then Reply(s.(watermark := now, publishers := heard, journal := w.journal, healthy := well), Rejected(w.code))
            else Reply(s.(watermark := now, publishers := heard, journal := w.journal, healthy := well, plans := s.plans[plan.attempt := plan]), Took))
  {
    hide Policies.Resolve, Provenances.Observe, Provenances.Classify, CheckBinding, Holds, CapabilitiesOf;
    InsistingIsPlain(c);
  }

  lemma CommitPlanOutcome(c: Config, s: State, plan: Plan, applied: Applied, sender: Provenance, clock: int, io: Io)
    ensures var checked := CheckPlan(s, plan, sender);
      var r := AckRequest(plan, applied, s.epoch, sender);
      var w := Persist(c.(durable := c.durable && true), s.journal, CommitMutation(r), io);
      var well := s.healthy && !(c.hasJournal && io.SyncFails?);
      var now := Later(s.watermark, clock);
      && (checked.Ok? ==> plan.queue in s.queues)
      && CommitPlan(c, s, plan, applied, sender, clock, io) ==
        if !checked.Ok? then Reply(s, Rejected(checked))
        else if !w.code.Ok? then Reply(s.(journal := w.journal, healthy := well), Rejected(w.code))
        else
          var t := Machine.ApplyExisting(c, s.(journal := w.journal), now, r, io, false);
          Reply(AfterTurn(s, r, now, t).state.(
            healthy := well, plans := if Succeeded(t.verdict) then s.plans - {plan.attempt} else s.plans), t.verdict)
  {
    hide Machine.ApplyExisting, Score, Succeeded;
    InsistingIsPlain(c);
  }

  lemma ExistingIgnoresHealth(c: Config, s: State, healthy: bool, now: int, r: Request, io: Io)
    requires PayloadMatches(r.kind, r.payload) && r.queue in s.queues
    ensures Machine.ApplyExisting(c, s.(healthy := healthy), now, r, io, false) == Machine.ApplyExisting(c, s, now, r, io, false)
  {
    hide Perform, Commit, Durable, Allowed, CheckCurrent, Provenances.Classify, Provenances.Observe, Remembered, Memos.Find, PayloadMatches,
      EffectOf;
  }

  lemma TurnOverJournal(s: State, j: Journal, healthy: bool, r: Request, now: int, t: Turn)
    ensures AfterTurn(s.(journal := j, healthy := healthy), r, now, t).state == AfterTurn(s, r, now, t).state.(healthy := healthy)
    ensures AfterTurn(s, r, now, t).state.plans == s.plans
  {
    hide Score;
  }

  lemma RegisteredOn(s: State, resource: Id, incarnation: nat, principal: Id, epoch: nat, sender: Provenance)
    requires CheckBackend(s, resource, incarnation, principal, epoch, sender).Ok?
    ensures resource in s.resources
  {
  }

  /** Aborting does not insist on a journal. */
  lemma AbortIgnoresDurable(c: Config, j: Journal, rec: Record, io: Io)
    ensures c.(durable := c.durable && false) == c.(durable := false)
    ensures Persist(c.(durable := false), j, rec, io).code.Ok? ==> !(c.hasJournal && io.SyncFails?)
  {
  }

  class Fabric {
    const c: Config
    var healthy: bool
    var shuttingDown: bool
    var replaying: bool
    var epoch: nat
    var boot: Boot
    var incarnation: nat
    var publishers: Provenances.Table
    var resources: map<Id, Resource>
    var queues: map<Id, Queue>
    var names: map<NameKey, Id>
    var plans: map<Attempt, Plan>
    var ids: Ids
    var watermark: int
    var tally: Tally
    var journal: Journal

    /** The machine state the object stands for. */
    ghost function Model(): State
      reads this
    {
      State(healthy, shuttingDown, epoch, boot, incarnation, publishers, resources, queues, names, plans, ids, watermark, tally, journal)
    }

    /** A process that has not recovered yet. */
    constructor (c: Config, journal: Journal)
      ensures this.c == c && this.journal == journal && !replaying
      ensures Model() == Blank(Boot(0, 0)).(journal := journal)
    {
      this.c := c;
      healthy := true;
      shuttingDown := false;
      replaying := false;
      epoch := 1;
      boot := Boot(0, 0);
      incarnation := 1;
      publishers := map[];
      resources := map[];
      queues := map[];
      names := map[];
      plans := map[];
      ids := Ids(1, 1, 1, 1, 1, 0);
      watermark := 0;
      tally := Tally(0, 0, 0);
      this.journal := journal;
    }

    // ---- clock, journal, memo -----------------------------------------------

    method MonotonicNow(clock: int) returns (now: int)
      modifies this`watermark
      ensures now == watermark == Later(old(watermark), clock)
    {
      if clock > watermark {
        watermark := clock;
      }
      now := watermark;
    }

    method JournalAppend(rec: Record)
      modifies this`journal
      ensures journal == old(journal).(records := old(journal).records + [rec])
    {
      journal := journal.(records := journal.records + [rec]);
    }

    method JournalSync()
      modifies this`journal
      ensures journal == old(journal).(synced := |old(journal).records|)
    {
      journal := journal.(synced := |journal.records|);
    }

    /** Begin record, commit record, flush; each may fail. */
    method JournalCommit(r: Request, io: Io) returns (code: Code)
      modifies this`journal
      ensures Written(journal, code) == Commit(c, old(journal), r, io)
    {
      if !c.hasJournal {
        code := if c.durable then NotDurable else Ok;
      } else if !Encodable(r) || io.BeginFails? {
        code := Internal;
      } else {
        JournalAppend(BeginAttempt(r));
        if io.CommitFails? {
          code := Internal;
        } else {
          JournalAppend(CommitMutation(r));
          if io.SyncFails? {
            code := NotDurable;
          } else {
            JournalSync();
            code := Ok;
          }
        }
      }
    }

    /** One record and a flush, whose failure leaves the fabric unhealthy. */
    method JournalRecord(rec: Record, insist: bool, io: Io) returns (code: Code)
      modifies this`journal, this`healthy
      ensures Written(journal, code) == Persist(c.(durable := c.durable && insist), old(journal), rec, io)
      ensures healthy == (old(healthy) && !(c.hasJournal && io.SyncFails?))
    {
      if !c.hasJournal {
        code := if c.durable && insist then NotDurable else Ok;
      } else if io.BeginFails? || io.CommitFails? {
        code := Internal;
      } else {
        JournalAppend(rec);
        if io.SyncFails? {
          healthy := false;
          code := NotDurable;
        } else {
          JournalSync();
          code := Ok;
        }
      }
    }

    method RememberAttempt(q: Queue, r: Request, outcome: Code, durable: bool) returns (next: Queue)
      ensures next == Remembered(c, q, r, outcome, durable)
    {
      var memo := MemoLog.RememberInPlace(q.memo,
        Memo(r.attempt, c.hash(EffectOf(r)), r.kind, outcome, q.def.generation, durable), c.limits.maxMemo);
      next := q.(memo := memo);
    }

    /** Counts a rejection and lets the queue, if there is one, remember it. */
    method RecordRejection(known: bool, r: Request, code: Code) returns (verdict: Verdict)
      requires known ==> r.queue in queues
      modifies this`tally, this`queues
      ensures verdict == Rejected(code) && tally == Score(old(tally), verdict)
      ensures queues == if known then old(queues)[r.queue := Remembered(c, old(queues)[r.queue], r, code, false)] else old(queues)
    {
      verdict := Rejected(code);
      tally := tally.(rejected := tally.rejected + 1);
      if known {
        var q := RememberAttempt(queues[r.queue], r, code, false);
        queues := queues[r.queue := q];
      }
    }

    // ---- mutations ----------------------------------------------------------

    method Raise(env: Env, q: Queue, r: Request) returns (target: Queue)
      requires r.payload.FencePayload? && env.tokens == ids.fence
      modifies this`ids
      ensures old(ids).fence <= ids.fence
      ensures Work.Raise(env, q, r, r.payload.reason) == Done(target, ids.fence - old(ids).fence)
      ensures ids == old(ids).(fence := ids.fence)
    {
      target := q;
      if !q.fence.fenced {
        ids := ids.(fence := ids.fence + 1);
        target := target.(fence := Fence(true, ids.fence, env.epoch, r.principal, Bounded(r.payload.reason), env.now));
        target := target.(flags := target.flags.(fenced := true));
      }
    }

    method Lower(q: Queue) returns (target: Queue)
      ensures Work.Lower(q) == Done(target, 0)
    {
      target := q;
      if q.fence.fenced {
        target := target.(fence := target.fence.(fenced := false, reason := []));
        target := target.(flags := target.flags.(fenced := false));
      }
    }

    /** The kind-specific work; only a new fence draws a token. */
    method ApplyKind(q: Queue, r: Request, env: Env) returns (code: Code, target: Queue)
      requires PayloadMatches(r.kind, r.payload) && env.tokens == ids.fence
      modifies this`ids
      ensures Answers(Perform(c, env, q, r), q, code, target)
      ensures ids == old(ids).(fence := ids.fence)
      ensures ids.fence == old(ids).fence + Drawn(Perform(c, env, q, r))
    {
      hide Validate, Activate, Rebind, Work.SetLimits, Transfer, Ingest, BeginDrain, EndDrain, Submit, Quiesce, Work.Raise, Work.Lower, Work.Fail, Retire,
        Acknowledge;
      code, target := Ok, q;
      DrawsTokens(env, q, r);
      match r.kind
      case ValidateQueue => code, target := ValidateOrActivate(env, q, Validated);
      case ActivateQueue => code, target := ValidateOrActivate(env, q, Active);
      case RebindClass => code, target := RebindNow(env, q, r.payload.binding);
      case SetThresholds => code, target := SetLimitsNow(q, r.payload.limits);
      case TransferOwnership => code, target := TransferNow(q, r.payload.owner);
      case IngestOccupancy => code, target := IngestSample(c, env, q, r.payload.sample, r.expectedEpoch);
      case RequestDrain => code, target := ChangeDrain(env, q, r);
      case CancelDrain => code, target := ChangeDrain(env, q, r);
      case SubmitDrainEvidence => code, target := SubmitDrain(c, env, q, r.payload.evidence);
      case QuiesceQueue => code, target := QuiesceNow(c, env, q);
      case FenceQueue =>
        target := Raise(env, q, r);
      case UnfenceQueue => target := Lower(q);
      case FailQueue => code, target := FailOrRetire(q, r);
      case RetireQueue => code, target := FailOrRetire(q, r);
      case AcknowledgeBackend => code, target := AcceptAck(env, q, r.payload.applied);
      case NoOp =>
      case _ => code := Unsupported;
    }

    /** Only raising a fence draws a token. */
    lemma DrawsTokens(env: Env, q: Queue, r: Request)
      requires PayloadMatches(r.kind, r.payload)
      ensures var w := Perform(c, env, q, r); w.Done? && !r.kind.FenceQueue? ==> w.tokens == 0
    {
      hide CheckBinding, Drains.Assess, Backends.Verify, Backends.FindLive, QueuePolicy, SameLife, NoteZero, CheckTransition,
        Occupancies.Invalidate;
    }

    /** Work on a copy, journal, publish, remember. */
    method ExecuteWork(r: Request, now: int, io: Io) returns (verdict: Verdict)
      requires PayloadMatches(r.kind, r.payload)
      requires r.queue in queues && queues[r.queue].def.resource in resources
      modifies this`queues, this`ids, this`journal, this`tally
      ensures var t := Execute(c, old(Model()), now, publishers, r, io);
        && verdict == t.verdict && queues == old(queues)[r.queue := t.queue] && ids == old(ids).(fence := t.fence)
        && journal == t.journal && tally == Score(old(tally), verdict)
    {
      hide Perform, Commit, Remembered, PayloadMatches, Durable;
      var queue := queues[r.queue];
      var env := Env(resources[queue.def.resource], epoch, now, ids.fence);
      var code, working := ApplyKind(queue, r, env);
      if code.Ok? && Durable(r.kind) {
        code := JournalCommit(r, io);
      }
      if code.Ok? {
        working := RememberAttempt(working, r, Ok, Durable(r.kind) && c.hasJournal);
        queues := queues[r.queue := working];
        tally := tally.(applied := tally.applied + 1);
        verdict := Took;
      } else {
        verdict := RecordRejection(true, r, code);
      }
    }

    /** Authority, provenance, generation and epoch, in this order. */
    method AdmitRequest(queue: Queue, r: Request) returns (code: Code)
      modifies this`publishers
      ensures Admission(code, publishers) == Admit(old(Model()), queue, r, replaying)
    {
      hide Allowed, CheckCurrent, Provenances.Classify, Provenances.Observe;
      if queue.def.resource !in resources {
        code := Internal;
      } else {
        code := Allowed(resources[queue.def.resource].authority, queue, r, replaying);
        if code.Ok? && !replaying {
          code := Provenances.CodeOf(Provenances.Classify(publishers, r.provenance, MAX_PUBLISHERS));
          if code.Ok? {
            publishers := Provenances.Observe(publishers, r.provenance);
          }
        }
        if code.Ok? {
          code := CheckCurrent(epoch, queue, r, replaying);
        }
      }
    }

    /** What the queue remembers, then admission, then the work. */
    method ApplyExisting(r: Request, now: int, io: Io) returns (verdict: Verdict)
      requires PayloadMatches(r.kind, r.payload) && r.queue in queues
      modifies this`publishers, this`queues, this`ids, this`journal, this`tally
      ensures var t := Machine.ApplyExisting(c, old(Model()), now, r, io, replaying);
        && verdict == t.verdict && publishers == t.publishers && queues == old(queues)[r.queue := t.queue]
        && ids == old(ids).(fence := t.fence) && journal == t.journal && tally == Score(old(tally), verdict)
    {
      hide Execute, Remembered, Admit, Memos.Find, PayloadMatches, EffectOf;
      var queue := queues[r.queue];
      ghost var s := Model();
      var memo := FindAttempt(queue.memo, r.attempt);
      if memo.Some? {
        if memo.value.fingerprint != c.hash(EffectOf(r)) {
          verdict := RecordRejection(true, r, Conflict);
        } else {
          tally := tally.(replayed := tally.replayed + 1);
          verdict := Repeated(memo.value.outcome);
        }
      } else {
        var code := AdmitRequest(queue, r);
        if code.Ok? {
          AdmittedHasResource(s, queue, r, replaying);
          ExecuteIgnoresSenders(c, s, publishers, now, r, io);
          ExecuteHeard(c, s, publishers, now, r, io);
          verdict := ExecuteWork(r, now, io);
        } else {
          verdict := RecordRejection(true, r, code);
        }
      }
    }

    /** How many queues a resource holds. */
    method CountQueues(resource: Id) returns (n: nat)
      ensures n == |QueuesOf(queues, resource)|
    {
      n := 0;
      var todo, counted: set<Id> := queues.Keys, {};
      while todo != {}
        invariant todo <= queues.Keys && n == |counted|
        invariant forall i :: i in counted <==> i in queues && i !in todo && queues[i].def.resource == resource
        decreases todo
      {
        var i :| i in todo;
        if queues[i].def.resource == resource {
          n := n + 1;
          counted := counted + {i};
        }
        todo := todo - {i};
      }
      assert counted == QueuesOf(queues, resource);
    }

    /** Everything a declaration is checked for, in order. */
    method CheckDeclare(r: Request) returns (verdict: Verdict)
      requires r.payload.DeclarePayload?
      ensures verdict == CheckDeclaration(c, Model(), r, replaying)
    {
      hide FindClass, FindPool, QueuesOf, Provenances.Classify, Holds, CapabilitiesOf;
      verdict := Took;
      var p := r.payload;
      var key := NameKey(p.resource, p.name);
      if p.resource !in resources {
        verdict := Rejected(NotFound);
      } else {
        var res := resources[p.resource];
        var allowed := Authorize(res.authority, r.principal, DeclareQueues, if replaying then res.authority.epoch else r.expectedEpoch,
          Flags(false, false), Active);
        if !allowed.Ok? {
          verdict := Rejected(allowed);
        } else if key in names {
          verdict := if names[key] in queues && SameDeclaration(queues[names[key]], r) then Repeated(Ok) else Rejected(AlreadyExists);
        } else {
          var count := CountQueues(p.resource);
          var cls, pool := FindClass(res.classes, p.cls.id), FindPool(res.pools, p.pool.id);
          if count >= c.limits.maxQueuesPerResource || |queues| >= c.limits.maxQueues {
            verdict := Rejected(CapacityExceeded);
          } else if cls.None? {
            verdict := Rejected(NotFound);
          } else if cls.value.generation != p.cls.generation {
            verdict := Rejected(StaleGeneration);
          } else if pool.None? {
            verdict := Rejected(NotFound);
          } else if pool.value.generation != p.pool.generation {
            verdict := Rejected(StaleGeneration);
          } else if !p.thresholds.Consistent() {
            verdict := Rejected(InvalidArgument);
          } else if !replaying {
            var seen := Provenances.Classify(publishers, r.provenance, MAX_PUBLISHERS);
            if !seen.Accepted? {
              verdict := Rejected(if seen.Duplicate? then ReplayDetected else StaleIncarnation);
            }
          }
        }
      }
    }

    /** Publishes the new record and numbers, names and counts it. */
    method InstallQueue(r: Request, now: int)
      requires r.payload.DeclarePayload? && r.payload.resource in resources
      modifies this`publishers, this`ids, this`resources, this`names, this`queues, this`tally
      ensures publishers == if replaying then old(publishers) else Provenances.Observe(old(publishers), r.provenance)
      ensures ids == old(ids).(queue := old(ids).queue + 1) && tally == Score(old(tally), Took)
      ensures resources == old(resources)[r.payload.resource := OneMoreQueue(old(resources)[r.payload.resource])]
      ensures names == old(names)[NameKey(r.payload.resource, r.payload.name) := old(ids).queue]
      ensures queues == old(queues)[old(ids).queue := Remembered(c, NewQueue(r, old(ids).queue, now), r, Ok, c.hasJournal)]
    {
      hide Remembered, NewQueue, Provenances.Observe;
      var p, id := r.payload, ids.queue;
      var record := RememberAttempt(NewQueue(r, id, now), r, Ok, c.hasJournal);
      if !replaying {
        publishers := Provenances.Observe(publishers, r.provenance);
      }
      ids := ids.(queue := id + 1);
      resources := resources[p.resource := OneMoreQueue(resources[p.resource])];
      names := names[NameKey(p.resource, p.name) := id];
      queues := queues[id := record];
      tally := tally.(applied := tally.applied + 1);
    }

    method PublishDeclare(r: Request, now: int)
      requires r.payload.DeclarePayload? && r.payload.resource in resources && watermark == now
      modifies this`publishers, this`ids, this`resources, this`names, this`queues, this`tally
      ensures Model() == Install(c, old(Model()), now, r, journal, replaying)
    {
      hide Install, Remembered, NewQueue, Provenances.Observe, Score, OneMoreQueue;
      ghost var s := Model();
      InstallQueue(r, now);
      InstallIs(c, s, now, r, replaying, Model());
    }

    /** Journals a checked declaration, then publishes it. */
    method CommitDeclare(r: Request, now: int, io: Io) returns (verdict: Verdict)
      requires r.payload.DeclarePayload? && watermark == now && CheckDeclaration(c, Model(), r, replaying).Took?
      modifies this`publishers, this`ids, this`resources, this`names, this`queues, this`tally, this`journal
      ensures Reply(Model(), verdict) == Machine.ApplyDeclare(c, old(Model()), now, r, io, replaying)
    {
      hide CheckDeclaration, Commit, Install, Score, Machine.ApplyDeclare;
      ghost var s := Model();
      DeclaredResource(c, s, r, replaying);
      DeclareOutcome(c, s, now, r, io, replaying);
      var code := JournalCommit(r, io);
      if code.Ok? {
        InstallOverJournal(c, s, now, r, journal, replaying);
        PublishDeclare(r, now);
        verdict := Took;
      } else {
        verdict := RecordRejection(false, r, code);
      }
    }

    method ApplyDeclare(r: Request, now: int, io: Io) returns (verdict: Verdict)
      requires r.payload.DeclarePayload? && watermark == now
      modifies this`publishers, this`ids, this`resources, this`names, this`queues, this`tally, this`journal
      ensures Reply(Model(), verdict) == Machine.ApplyDeclare(c, old(Model()), now, r, io, replaying)
    {
      hide CheckDeclaration, Commit, Install;
      verdict := CheckDeclare(r);
      if verdict.Rejected? {
        verdict := RecordRejection(false, r, verdict.code);
      } else if verdict.Repeated? {
        tally := tally.(replayed := tally.replayed + 1);
      } else {
        verdict := CommitDeclare(r, now, io);
      }
    }

    /** The mutation entry point. */
    method ApplyMutation(r: Request, clock: int, io: Io) returns (verdict: Verdict)
      modifies this
      ensures Reply(Model(), verdict) == Apply(c, old(Model()), r, clock, io, replaying) && replaying == old(replaying)
    {
      hide Machine.ApplyDeclare, Machine.ApplyExisting, Check, Score;
      var now := MonotonicNow(clock);
      var code := Check(r);
      ghost var s := old(Model());
      if shuttingDown {
        verdict := Rejected(ShuttingDown);
      } else if !code.Ok? {
        verdict := RecordRejection(false, r, code);
      } else if r.kind.DeclareQueue? {
        DeclareIgnoresClock(c, s, now, now, r, io, replaying);
        verdict := ApplyDeclare(r, now, io);
      } else if r.queue !in queues {
        verdict := RecordRejection(false, r, NotFound);
      } else {
        ExistingIgnoresClock(c, s, now, now, r, io, replaying);
        verdict := ApplyExisting(r, now, io);
      }
    }

    // ---- governance ---------------------------------------------------------

    method MayAdvance(principal: Id) returns (allowed: bool)
      ensures allowed == Administers(Model(), principal)
    {
      hide CapabilitiesOf;
      allowed := resources == map[];
      var todo := resources.Keys;
      while todo != {} && !allowed
        invariant todo <= resources.Keys
        invariant allowed ==> Administers(Model(), principal)
        invariant !allowed ==> resources != map[]
        invariant forall i :: !allowed && i in resources && i !in todo ==>
          !Holds(CapabilitiesOf(resources[i].authority.grants, principal), Admin)
        decreases todo
      {
        var i :| i in todo;
        if Holds(CapabilitiesOf(resources[i].authority.grants, principal), Admin) {
          allowed := true;
        }
        todo := todo - {i};
      }
    }

    method AdoptEpoch()
      modifies this`resources
      ensures resources == AllInEpoch(old(resources), epoch)
    {
      hide InEpoch;
      ghost var before := resources;
      var todo := resources.Keys;
      while todo != {}
        modifies this`resources
        invariant resources.Keys == before.Keys && todo <= before.Keys
        invariant forall i :: i in before ==> resources[i] == if i in todo then before[i] else InEpoch(before[i], epoch)
        decreases todo
      {
        var i :| i in todo;
        resources := resources[i := InEpoch(resources[i], epoch)];
        todo := todo - {i};
      }
    }

    method SupersedeEvidence()
      modifies this`queues
      ensures queues == AllSuperseded(old(queues))
    {
      hide Superseded;
      ghost var before := queues;
      var todo := queues.Keys;
      while todo != {}
        modifies this`queues
        invariant queues.Keys == before.Keys && todo <= before.Keys
        invariant forall i :: i in before ==> queues[i] == if i in todo then before[i] else Superseded(before[i])
        decreases todo
      {
        var i :| i in todo;
        queues := queues[i := Superseded(queues[i])];
        todo := todo - {i};
      }
    }

    method CheckAdvanceNow(principal: Id, sender: Provenance) returns (code: Code)
      ensures code == CheckAdvance(Model(), principal, sender)
    {
      hide Administers;
      var allowed := MayAdvance(principal);
      code := if shuttingDown then ShuttingDown
        else if !healthy then NotDurable
        else if !sender.Valid() then MalformedInput
        else if !allowed then AuthorityDenied
        else if epoch == COUNTER_MAX then CapacityExceeded
        else Ok;
    }

    method EnterEpoch(clock: int)
      modifies this`epoch, this`resources, this`queues, this`watermark
      ensures epoch == old(epoch) + 1 && watermark == Later(old(watermark), clock)
      ensures resources == AllInEpoch(old(resources), old(epoch) + 1) && queues == AllSuperseded(old(queues))
    {
      hide AllSuperseded, AllInEpoch;
      epoch := epoch + 1;
      AdoptEpoch();
      var _ := MonotonicNow(clock);
      SupersedeEvidence();
    }

    /** The epoch record is durable before the epoch counts. */
    method AdvanceEpochNow(principal: Id, sender: Provenance, clock: int, io: Io) returns (verdict: Verdict)
      modifies this`journal, this`healthy, this`epoch, this`resources, this`queues, this`watermark
      ensures Reply(Model(), verdict) == AdvanceEpoch(c, old(Model()), principal, sender, clock, io)
    {
      hide CheckAdvance, Persist, AllSuperseded, AllInEpoch, Machine.AdvanceEpoch;
      AdvanceOutcome(c, Model(), principal, sender, clock, io);
      var code := CheckAdvanceNow(principal, sender);
      if code.Ok? {
        code := JournalRecord(EpochState(boot, epoch + 1, incarnation), true, io);
        if code.Ok? {
          EnterEpoch(clock);
        }
      }
      verdict := if code.Ok? then Took else Rejected(code);
    }

    method InvalidateNow(queue: Id, principal: Id, epoch_: nat, clock: int) returns (verdict: Verdict)
      modifies this`queues, this`watermark
      ensures Reply(Model(), verdict) == InvalidateEvidence(old(Model()), queue, principal, epoch_, clock)
    {
      hide CapabilitiesOf, Holds;
      var code := NotFound;
      if queue in queues {
        var q := queues[queue];
        code := if q.def.resource !in resources then Internal
          else Authorize(resources[q.def.resource].authority, principal, Admin, epoch_, q.flags, q.lifecycle);
        if code.Ok? {
          if q.occupancy.present {
            q := q.(occupancy := Occupancies.Invalidate(q.occupancy, StaleBackend));
          }
          q := q.(flags := q.flags.(stale := true));
          queues := queues[queue := q];
          var _ := MonotonicNow(clock);
        }
      }
      verdict := if code.Ok? then Took else Rejected(code);
    }

    method RefreshFreshness(clock: int) returns (verdict: Verdict)
      modifies this`queues, this`watermark
      ensures Reply(Model(), verdict) == Refresh(c, old(Model()), clock)
    {
      hide Refreshed;
      if shuttingDown {
        verdict := Rejected(ShuttingDown);
      } else {
        var now := MonotonicNow(clock);
        ghost var before := queues;
        var todo := queues.Keys;
        while todo != {}
          modifies this`queues
          invariant queues.Keys == before.Keys && todo <= before.Keys
          invariant forall i :: i in before ==> queues[i] == if i in todo then before[i] else Refreshed(c, before[i], now)
          decreases todo
        {
          var i :| i in todo;
          queues := queues[i := Refreshed(c, queues[i], now)];
          todo := todo - {i};
        }
        assert queues == AllRefreshed(c, before, now);
        verdict := Took;
      }
    }

    // ---- indexes ------------------------------------------------------------

    method CountAll()
      modifies this`resources
      ensures resources == AllCounted(old(resources), queues)
    {
      hide QueuesOf;
      ghost var before := resources;
      var todo := resources.Keys;
      while todo != {}
        modifies this`resources
        invariant resources.Keys == before.Keys && todo <= before.Keys
        invariant forall i :: i in before ==> resources[i] == if i in todo then before[i] else WithCount(before[i], queues)
        decreases todo
      {
        var i :| i in todo;
        var n := CountQueues(resources[i].id);
        resources := resources[i := resources[i].(queueCount := n)];
        todo := todo - {i};
      }
    }

    /** Names are entered from the greatest key down, so that the least stays. */
    method NameAll()
      modifies this`names
      ensures names == NamesOf(queues)
    {
      hide KeyOf;
      names := map[];
      ghost var bearers: map<NameKey, Id> := map[];
      var todo := queues.Keys;
      while todo != {}
        modifies this`names
        invariant todo <= queues.Keys && names.Keys == bearers.Keys
        invariant forall i, j :: i in todo && j in queues && j !in todo ==> i < j
        invariant forall k :: k in bearers ==> bearers[k] in queues && bearers[k] !in todo && KeyOf(queues[bearers[k]]) == k
        invariant forall k :: k in bearers ==> names[k] == queues[bearers[k]].def.id
        invariant forall j :: j in queues && j !in todo ==> KeyOf(queues[j]) in bearers && bearers[KeyOf(queues[j])] <= j
        decreases todo
      {
        var i := MaxOf(todo);
        names := names[KeyOf(queues[i]) := queues[i].def.id];
        bearers := bearers[KeyOf(queues[i]) := i];
        todo := todo - {i};
      }
      NamesAreLeast(names, bearers, queues);
    }

    method NextIds() returns (fresh_: Ids)
      ensures fresh_ == FreshIds(resources, queues)
    {
      hide Greatest;
      var maxResource := MaxOf(set i | i in resources :: resources[i].id);
      var maxClass := MaxOf(set i, k | i in resources && 0 <= k < |resources[i].classes| :: resources[i].classes[k].id);
      var maxPool := MaxOf(set i, k | i in resources && 0 <= k < |resources[i].pools| :: resources[i].pools[k].id);
      var maxBackend := MaxOf(set i, k | i in resources && 0 <= k < |resources[i].backends| :: resources[i].backends[k].id);
      var maxQueue := MaxOf(set i | i in queues :: queues[i].def.id);
      var maxFence := MaxOf(set i | i in queues :: queues[i].fence.token);
      fresh_ := Ids(maxResource + 1, maxQueue + 1, maxClass + 1, maxPool + 1, maxBackend + 1, maxFence);
    }

    method RebuildIndexes()
      modifies this`names, this`resources, this`ids
      ensures Model() == Rebuild(old(Model()))
    {
      hide NamesOf, AllCounted, FreshIds;
      ids := NextIds();
      CountAll();
      NameAll();
    }

    // ---- recovery -----------------------------------------------------------

    /** An incarnation is minted per live process; none survives a restart. */
    method KillBackends()
      modifies this`resources
      ensures resources == AllLifeless(old(resources))
    {
      hide Lifeless;
      ghost var before := resources;
      var todo := resources.Keys;
      while todo != {}
        modifies this`resources
        invariant resources.Keys == before.Keys && todo <= before.Keys
        invariant forall i :: i in before ==> resources[i] == if i in todo then before[i] else Lifeless(before[i])
        decreases todo
      {
        var i :| i in todo;
        resources := resources[i := Lifeless(resources[i])];
        todo := todo - {i};
      }
    }

    /** Committed requests go through the ordinary entry point, in file order. */
    method ReplayAll(order: seq<Request>, feed: seq<Moment>)
      requires !replaying
      modifies this
      ensures Model() == Replay(c, old(Model()), order, feed) && !replaying
    {
      hide Apply;
      ghost var base := Model();
      for k := 0 to |order|
        invariant Model() == Replay(c, base, order[..k], feed) && !replaying
      {
        assert order[..k + 1][..k] == order[..k];
        replaying := true;
        var _ := ApplyMutation(order[k], MomentAt(feed, k).clock, MomentAt(feed, k).io);
        replaying := false;
      }
      assert order[..|order|] == order;
    }

    method DistrustEvery()
      modifies this`queues
      ensures queues.Keys == old(queues).Keys && forall i :: i in queues ==> queues[i] == Distrusted(old(queues)[i], false)
    {
      hide Distrusted;
      ghost var before := queues;
      var todo := queues.Keys;
      while todo != {}
        modifies this`queues
        invariant queues.Keys == before.Keys && todo <= before.Keys
        invariant forall i :: i in before ==> queues[i] == if i in todo then before[i] else Distrusted(before[i], false)
        decreases todo
      {
        var i :| i in todo;
        queues := queues[i := Distrusted(queues[i], false)];
        todo := todo - {i};
      }
    }

    method DistrustOrphans(outstanding: map<Attempt, Request>)
      modifies this`queues
      ensures queues.Keys == old(queues).Keys
      ensures forall i :: i in queues ==> queues[i] == if Orphaned(outstanding, i) then Distrusted(old(queues)[i], true) else old(queues)[i]
    {
      hide Distrusted;
      ghost var before := queues;
      var open := outstanding.Keys;
      ghost var done: set<Id> := {};
      while open != {}
        modifies this`queues
        invariant queues.Keys == before.Keys && open <= outstanding.Keys
        invariant forall i :: i in done <==> exists a :: a in outstanding && a !in open && outstanding[a].queue == i
        invariant forall i :: i in before ==> queues[i] == if i in done then Distrusted(before[i], true) else before[i]
        decreases open
      {
        var a :| a in open;
        var i := outstanding[a].queue;
        if i in queues {
          DistrustTwice(before[i]);
          queues := queues[i := Distrusted(queues[i], true)];
        }
        done := done + {i};
        open := open - {a};
      }
    }

    /** No stored evidence is live authority in a new life. */
    method DistrustAll(outstanding: map<Attempt, Request>)
      modifies this`queues
      ensures queues == AllDistrusted(old(queues), outstanding)
    {
      hide Distrusted, Orphaned;
      ghost var before := queues;
      DistrustEvery();
      DistrustOrphans(outstanding);
      forall i | i in before ensures queues[i] == Distrusted(before[i], Orphaned(outstanding, i)) {
        DistrustTwice(before[i]);
      }
    }

    /** Records and backends as a crash left them, before any epoch is known;
        what the fabric held before stays where the journal does not name it. */
    method Restore(l: Loaded, boot_: Boot)
      modifies this`boot, this`epoch, this`incarnation, this`resources, this`queues
      ensures Model() == RestoredOver(old(Model()), l, boot_)
    {
      hide AllLifeless;
      boot, epoch, incarnation := boot_, 1, 1;
      resources := resources + l.resources;
      queues := queues + l.queues;
      KillBackends();
    }

    /** Durable authority comes back under the new epoch. */
    method EnterLife(l: Loaded)
      modifies this`epoch, this`incarnation, this`resources, this`names, this`ids
      ensures Model() == EnteredLife(old(Model()), l)
    {
      hide Rebuild, AllInEpoch;
      epoch := NextEpoch(l.epoch);
      incarnation := l.incarnation;
      AdoptEpoch();
      RebuildIndexes();
    }

    /** Header and epoch record of the new life. */
    method AnnounceLife()
      modifies this`journal
      ensures Model() == Announce(old(Model()))
    {
      journal := journal.(headerEpoch := epoch);
      JournalAppend(EpochState(boot, epoch, incarnation));
      JournalSync();
    }

    /** Everything after the new epoch is known. */
    method Resume(l: Loaded, feed: seq<Moment>)
      requires !replaying
      modifies this
      ensures !replaying
      ensures Model() == Announce(Rebuild(Distrust(Replay(c, EnteredLife(old(Model()), l), l.order, feed), l.outstanding)))
    {
      hide EnteredLife, Replay, Rebuild, Announce, AllDistrusted, AllLifeless;
      EnterLife(l);
      ReplayAll(l.order, feed);
      DistrustAll(l.outstanding);
      RebuildIndexes();
      AnnounceLife();
    }

    /** Recovery, of a fabric just constructed or of one already running. */
    method RecoverNow(boot_: Boot, feed: seq<Moment>, clock: int) returns (verdict: Verdict)
      requires !replaying
      modifies this
      ensures Reply(Model(), verdict) == RecoverOver(c, old(Model()), boot_, feed, clock) && !replaying
    {
      hide EnteredLife, Replay, Rebuild, Announce, Distrust, Load, RestoredOver;
      if !c.hasJournal {
        boot, epoch, incarnation, healthy := boot_, 1, 1, true;
        verdict := Took;
      } else {
        var l := LoadRecords(journal.records, journal.headerEpoch);
        Restore(l, boot_);
        if l.epoch == COUNTER_MAX {
          healthy := false;
          verdict := Rejected(CapacityExceeded);
        } else {
          Resume(l, feed);
          healthy := true;
          var _ := MonotonicNow(clock);
          verdict := Took;
        }
      }
    }

    // ---- compaction ---------------------------------------------------------

    method BuildSnapshot() returns (records: seq<Record>)
      ensures records == Snapshot(Model())
    {
      hide Ascending;
      records := [EpochState(boot, epoch, incarnation)];
      var order := Sort(resources.Keys);
      forall k | 0 <= k < |order| ensures order[k] in resources {
        AscendingMembers(resources.Keys, order[k]);
      }
      ghost var head := records;
      for k := 0 to |order|
        invariant records == head + ResourceStates(resources, order)[..k]
      {
        records := records + [ResourceState(resources[order[k]])];
      }
      ghost var topology := records;
      var later := Sort(queues.Keys);
      forall k | 0 <= k < |later| ensures later[k] in queues {
        AscendingMembers(queues.Keys, later[k]);
      }
      for k := 0 to |later|
        invariant records == topology + QueueStates(queues, later)[..k]
      {
        records := records + [QueueState(queues[later[k]])];
      }
      assert ResourceStates(resources, order)[..|order|] == ResourceStates(resources, order);
      assert QueueStates(queues, later)[..|later|] == QueueStates(queues, later);
    }

    method CompactNow(io: Io) returns (verdict: Verdict)
      modifies this`journal
      ensures Reply(Model(), verdict) == Compact(c, old(Model()), io)
    {
      hide Snapshot;
      if !c.hasJournal {
        verdict := Rejected(Unsupported);
      } else if shuttingDown {
        verdict := Rejected(ShuttingDown);
      } else if plans != map[] {
        verdict := Rejected(Busy);
      } else {
        var records := BuildSnapshot();
        if io.Good? {
          journal := journal.(records := records, synced := |records|);
          verdict := Took;
        } else {
          verdict := Rejected(NotDurable);
        }
      }
    }

    // ---- two-phase backend application --------------------------------------

    method CheckReserve(queue: Id, expected: nat, principal: Id, sender: Provenance) returns (code: Code)
      ensures code == CheckReservation(c, Model(), queue, expected, principal, sender)
    {
      hide CheckBinding, Holds, CapabilitiesOf, Provenances.Classify;
      if shuttingDown {
        code := ShuttingDown;
      } else if !healthy {
        code := NotDurable;
      } else if !sender.Valid() {
        code := MalformedInput;
      } else if queue !in queues {
        code := NotFound;
      } else if queues[queue].def.resource !in resources {
        code := Internal;
      } else {
        var q := queues[queue];
        var res := resources[q.def.resource];
        var seen := Provenances.Classify(publishers, sender, MAX_PUBLISHERS);
        code := Authorize(res.authority, principal, AcknowledgeBackends, epoch, q.flags, q.lifecycle);
        if code.Ok? {
          code := if expected == 0 || expected != q.def.generation then StaleGeneration
            else if !CheckBinding(res.classes, q.def.cls).Ok? then StaleGeneration
            else if |plans| >= c.limits.maxPending then CapacityExceeded
            else if seen.Duplicate? then ReplayDetected
            else if !seen.Accepted? then StaleIncarnation
            else Ok;
        }
      }
    }

    /** The reservation is recorded before any external effect can happen. */
    method BookPlan(plan: Plan, sender: Provenance, io: Io) returns (code: Code)
      modifies this`publishers, this`journal, this`healthy, this`plans
      ensures publishers == Provenances.Observe(old(publishers), sender)
      ensures Written(journal, code) ==
        Persist(c.(durable := c.durable && true), old(journal), BeginAttempt(AckRequest(plan, NOT_APPLIED, plan.epoch, sender)), io)
      ensures healthy == (old(healthy) && !(c.hasJournal && io.SyncFails?))
      ensures plans == if code.Ok? then old(plans)[plan.attempt := plan] else old(plans)
    {
      hide Persist, Provenances.Observe;
      publishers := Provenances.Observe(publishers, sender);
      code := JournalRecord(BeginAttempt(AckRequest(plan, NOT_APPLIED, plan.epoch, sender)), true, io);
      if code.Ok? {
        plans := plans[plan.attempt := plan];
      }
    }

    method ReserveNow(queue: Id, expected: nat, principal: Id, sender: Provenance, clock: int, io: Io) returns (verdict: Verdict)
      modifies this`watermark, this`publishers, this`journal, this`healthy, this`plans
      ensures Reply(Model(), verdict) == Reserve(c, old(Model()), queue, expected, principal, sender, clock, io)
    {
      hide CheckReservation, Persist, Provenances.Observe, Machine.Reserve, Policies.Resolve;
      ReserveOutcome(c, Model(), queue, expected, principal, sender, clock, io);
      var code := CheckReserve(queue, expected, principal, sender);
      if code.Ok? {
        var now := MonotonicNow(clock);
        var def := queues[queue].def;
        var plan := Plan(Attempt(sender.publisher, sender.sequence), queue, def.resource, def.generation, def.cls,
          Policies.Resolve(c.policy, def.thresholds, def.cls.id), principal, epoch, now);
        if plan.attempt in plans {
          code := Conflict;
        } else {
          code := BookPlan(plan, sender, io);
        }
      }
      verdict := if code.Ok? then Took else Rejected(code);
    }

    /** Applies the acknowledgement and drops the reservation if it took. */
    method ConfirmPlan(attempt: Attempt, r: Request, clock: int, io: Io) returns (verdict: Verdict)
      requires !replaying && PayloadMatches(r.kind, r.payload) && r.queue in queues
      modifies this`publishers, this`queues, this`ids, this`journal, this`tally, this`watermark, this`plans
      ensures var now := Later(old(watermark), clock);
        var t := Machine.ApplyExisting(c, old(Model()), now, r, io, false);
        && verdict == t.verdict
        && Model() == AfterTurn(old(Model()), r, now, t).state.(plans := if Succeeded(t.verdict) then old(plans) - {attempt} else old(plans))
    {
      hide Machine.ApplyExisting, Score, PayloadMatches;
      ghost var s := Model();
      var now := MonotonicNow(clock);
      ExistingIgnoresClock(c, s, now, now, r, io, false);
      verdict := ApplyExisting(r, now, io);
      if Succeeded(verdict) {
        plans := plans - {attempt};
      }
    }

    method CheckCommit(plan: Plan, sender: Provenance) returns (code: Code)
      ensures code == CheckPlan(Model(), plan, sender)
    {
      code := if shuttingDown then ShuttingDown
        else if plan.attempt !in plans then NotFound
        else if plan.queue !in queues then NotFound
        else if queues[plan.queue].def.generation != plan.generation then StaleGeneration
        else if !sender.Valid() then MalformedInput
        else Ok;
    }

    /** The commit marker is durable before the acknowledgement is applied. */
    method CommitChecked(plan: Plan, applied: Applied, sender: Provenance, clock: int, io: Io) returns (verdict: Verdict)
      requires !replaying && CheckPlan(Model(), plan, sender).Ok?
      modifies this`publishers, this`queues, this`ids, this`journal, this`tally, this`watermark, this`plans, this`healthy
      ensures Reply(Model(), verdict) == CommitPlan(c, old(Model()), plan, applied, sender, clock, io)
    {
      hide Persist, Machine.ApplyExisting, Machine.CommitPlan, CheckPlan, Succeeded, Later, AfterTurn;
      ghost var s := Model();
      CommitPlanOutcome(c, s, plan, applied, sender, clock, io);
      var r := AckRequest(plan, applied, epoch, sender);
      var code := JournalRecord(CommitMutation(r), true, io);
      verdict := Rejected(code);
      if code.Ok? {
        ghost var now := Later(watermark, clock);
        ExistingIgnoresHealth(c, s.(journal := journal), healthy, now, r, io);
        TurnOverJournal(s, journal, healthy, r, now, Machine.ApplyExisting(c, s.(journal := journal), now, r, io, false));
        verdict := ConfirmPlan(plan.attempt, r, clock, io);
      }
    }

    method CommitPlanNow(plan: Plan, applied: Applied, sender: Provenance, clock: int, io: Io) returns (verdict: Verdict)
      requires !replaying
      modifies this`publishers, this`queues, this`ids, this`journal, this`tally, this`watermark, this`plans, this`healthy
      ensures Reply(Model(), verdict) == CommitPlan(c, old(Model()), plan, applied, sender, clock, io)
    {
      hide Persist, Machine.ApplyExisting, CheckPlan, AfterTurn;
      var code := CheckCommit(plan, sender);
      if code.Ok? {
        verdict := CommitChecked(plan, applied, sender, clock, io);
      } else {
        verdict := Rejected(code);
      }
    }

    method AbortPlanNow(plan: Plan, clock: int, io: Io) returns (verdict: Verdict)
      modifies this`journal, this`healthy, this`plans, this`watermark
      ensures Reply(Model(), verdict) == AbortPlan(c, old(Model()), plan, clock, io)
    {
      hide Persist;
      AbortIgnoresDurable(c, journal, CommitMutation(AbortMarker(plan)), io);
      var code := NotFound;
      if plan.attempt in plans {
        code := JournalRecord(CommitMutation(AbortMarker(plan)), false, io);
        if code.Ok? {
          plans := plans - {plan.attempt};
          var _ := MonotonicNow(clock);
        }
      }
      verdict := if code.Ok? then Took else Rejected(code);
    }

    // ---- topology and shutdown ----------------------------------------------

    method CheckRegistration(resource: Id, incarnation_: nat, principal: Id, epoch_: nat, sender: Provenance) returns (code: Code)
      ensures code == CheckBackend(Model(), resource, incarnation_, principal, epoch_, sender)
    {
      hide Holds, CapabilitiesOf;
      code := if shuttingDown then ShuttingDown
        else if !sender.Valid() then MalformedInput
        else if incarnation_ == 0 then InvalidArgument
        else if resource !in resources then NotFound
        else Authorize(resources[resource].authority, principal, DeclareTopology, epoch_, Flags(false, false), Active);
    }

    /** The new incarnation is in memory before it is journalled. */
    method PushBackend(resource: Id, incarnation_: nat, now: int, io: Io) returns (code: Code)
      requires resource in resources
      modifies this`ids, this`resources, this`journal, this`healthy
      ensures var updated := WithBackend(old(resources)[resource], Backend(old(ids).backend, resource, incarnation_, epoch, now, true));
        && resources == old(resources)[resource := updated] && ids == old(ids).(backend := old(ids).backend + 1)
        && Written(journal, code) == Persist(c, old(journal), ResourceState(updated), io)
        && healthy == (old(healthy) && !(c.hasJournal && io.SyncFails?))
    {
      hide Persist;
      InsistingIsPlain(c);
      var res := WithBackend(resources[resource], Backend(ids.backend, resource, incarnation_, epoch, now, true));
      ids := ids.(backend := ids.backend + 1);
      resources := resources[resource := res];
      code := JournalRecord(ResourceState(res), true, io);
    }

    method RegisterBackendNow(resource: Id, incarnation_: nat, principal: Id, epoch_: nat, sender: Provenance, clock: int, io: Io)
      returns (verdict: Verdict)
      modifies this`watermark, this`ids, this`resources, this`journal, this`healthy
      ensures Reply(Model(), verdict) == AddBackend(c, old(Model()), resource, incarnation_, principal, epoch_, sender, clock, io)
    {
      hide Persist, CheckBackend, WithBackend;
      var code := CheckRegistration(resource, incarnation_, principal, epoch_, sender);
      if code.Ok? {
        RegisteredOn(Model(), resource, incarnation_, principal, epoch_, sender);
        var now := MonotonicNow(clock);
        if |resources[resource].backends| >= c.limits.maxResources {
          code := CapacityExceeded;
        } else {
          code := PushBackend(resource, incarnation_, now, io);
        }
      }
      verdict := if code.Ok? then Took else Rejected(code);
    }

    method ShutdownNow(clock: int, io: Io)
      modifies this`shuttingDown, this`journal, this`watermark
      ensures Model() == Shutdown(c, old(Model()), clock, io).state
    {
      if !shuttingDown {
        shuttingDown := true;
        if c.hasJournal && io.Good? {
          JournalSync();
        }
        var _ := MonotonicNow(clock);
      }
    }
  }
}
