/** The name index agrees with the queue records. */
module Names {
  import opened Status
  import opened Entities
  import opened Mutations
  import opened Work
  import opened Machine
  import opened Evolution
  import opened Recovery
  import opened Run
  import opened Steps
  import opened Reach
  import opened Extremes
  import opened Words
  import Soundness
  import Epochs
  import Deltas
  import opened Generations
  import Quiescence
  import Occupancies
  import Provenances
  import Memos

  // ---- the index ------------------------------------------------------------

  /** The index is exactly (resource, name) to identity over all queues. */
  predicate Faithful(names: map<NameKey, Id>, queues: map<Id, Queue>) {
    && (forall i :: i in queues ==> KeyOf(queues[i]) in names && names[KeyOf(queues[i])] == i)
    && (forall k :: k in names ==> names[k] in queues && KeyOf(queues[names[k]]) == k)
  }

  ghost predicate WithinCapacity(c: Config, queues: map<Id, Queue>) {
    |queues| <= c.limits.maxQueues && forall r :: |QueuesOf(queues, r)| <= c.limits.maxQueuesPerResource
  }

  ghost predicate Indexed(c: Config, s: State) {
    && Faithful(s.names, s.queues) && WithinCapacity(c, s.queues)
    && s.ids.queue >= 1 && IsGreatest(s.ids.queue - 1, s.queues.Keys)
  }

  /** The same queues under the same names. */
  predicate SameKeys(queues: map<Id, Queue>, next: map<Id, Queue>) {
    next.Keys == queues.Keys && forall i :: i in queues ==> KeyOf(next[i]) == KeyOf(queues[i])
  }

  lemma SameKeysIndexed(c: Config, s: State, next: State)
    requires Indexed(c, s) && SameKeys(s.queues, next.queues) && next.names == s.names && next.ids.queue == s.ids.queue
    ensures Indexed(c, next)
  {
    SameKeysCapacity(c, s.queues, next.queues);
  }

  lemma SameKeysCapacity(c: Config, queues: map<Id, Queue>, next: map<Id, Queue>)
    requires WithinCapacity(c, queues) && SameKeys(queues, next)
    ensures WithinCapacity(c, next)
  {
    forall r ensures |QueuesOf(next, r)| <= c.limits.maxQueuesPerResource {
      assert QueuesOf(next, r) == QueuesOf(queues, r);
    }
    assert |next.Keys| == |next| && |queues.Keys| == |queues|;
  }

  // ---- the text of a key ----------------------------------------------------

  function HexDigit(d: nat): byte
    requires d < 16
  {
    if d < 10 then 48 + d else 87 + d
  }

  function Hex(v: nat, digits: nat): seq<byte> {
    if digits == 0 then [] else Hex(v / 16, digits - 1) + [HexDigit(v % 16)]
  }

  /** The string the index is keyed by: the resource in sixteen hexadecimal
      digits behind 0x, a slash, and the name. */
  function KeyText(key: NameKey): Text {
    [48, 120] + Hex(key.resource, 16) + [47] + key.name
  }

  lemma {:induction false} HexLength(v: nat, digits: nat)
    ensures |Hex(v, digits)| == digits
    decreases digits
  {
    if digits > 0 {
      HexLength(v / 16, digits - 1);
    }
  }

  lemma {:induction false} HexInjective(v: nat, w: nat, digits: nat)
    requires v < Pow2(4 * digits) && w < Pow2(4 * digits) && Hex(v, digits) == Hex(w, digits)
    ensures v == w
    decreases digits
  {
    if digits > 0 {
      HexLength(v / 16, digits - 1);
      HexLength(w / 16, digits - 1);
      assert Hex(v, digits)[..digits - 1] == Hex(v / 16, digits - 1) && Hex(w, digits)[..digits - 1] == Hex(w / 16, digits - 1);
      assert Hex(v, digits)[digits - 1] == HexDigit(v % 16) && Hex(w, digits)[digits - 1] == HexDigit(w % 16);
      Pow2Add(4, 4 * (digits - 1));
      assert Pow2(4) == 16;
      HexInjective(v / 16, w / 16, digits - 1);
    }
  }

  /** Distinct resources and names have distinct key strings, whatever
      characters a name contains, so keying by the pair loses nothing. */
  lemma KeyTextInjective(key: NameKey, other: NameKey)
    requires key.resource < U64 && other.resource < U64 && KeyText(key) == KeyText(other)
    ensures key == other
  {
    hide Hex, Pow2;
    HexLength(key.resource, 16);
    HexLength(other.resource, 16);
    assert KeyText(key)[2..18] == Hex(key.resource, 16) && KeyText(other)[2..18] == Hex(other.resource, 16);
    assert KeyText(key)[19..] == key.name && KeyText(other)[19..] == other.name;
    assert Pow2(64) == U64 by {
      Pow2Values();
      Pow2Add(32, 32);
    }
    HexInjective(key.resource, other.resource, 16);
  }

  // ---- one mutation ---------------------------------------------------------

  lemma KeptKey(c: Config, r: Request, q: Queue, next: Queue)
    requires Kept(c, r, q, next)
    ensures KeyOf(next) == KeyOf(q)
  {
    hide MemoGrows;
  }

  lemma WorkedKey(c: Config, s: State, now: int, q: Queue, r: Request, replaying: bool, next: Queue)
    requires Worked(c, s, now, q, r, replaying, next)
    ensures KeyOf(next) == KeyOf(q)
  {
    hide Perform, Admitted, Remembered, PayloadMatches, Durable, Kept;
    Soundness.AdmittedResource(c, s, q, r, replaying);
    var env := EnvAt(s, q, now);
    Soundness.PerformKeepsId(c, env, q, r);
    var w := Perform(c, env, q, r);
    RememberedKept(c, w.queue, r, Ok, Durable(r.kind) && c.hasJournal);
    KeptKey(c, r, w.queue, next);
  }

  lemma HandledKey(c: Config, s: State, r: Request, replaying: bool, reply: Reply, i: Id)
    requires i in s.queues && Handled(c, s, r, replaying, reply, i)
    ensures i in reply.state.queues && KeyOf(reply.state.queues[i]) == KeyOf(s.queues[i])
  {
    hide Worked, Kept, KeyOf;
    if reply.verdict.Took? && r.queue == i && !r.kind.DeclareQueue? {
      WorkedKey(c, s, reply.state.watermark, s.queues[i], r, replaying, reply.state.queues[i]);
    } else {
      KeptKey(c, r, s.queues[i], reply.state.queues[i]);
    }
  }

  lemma MarkedKey(c: Config, s: State, e: Event, next: State, i: Id)
    requires i in s.queues && Marked(c, s, e, next, i)
    ensures i in next.queues && KeyOf(next.queues[i]) == KeyOf(s.queues[i])
  {
    hide NextClass, QueuePolicy, Occupancies.Classify, Occupancies.Invalidate;
  }

  /** What a mutation does to index and numbering. */
  predicate NamesAfter(s: State, r: Request, reply: Reply) {
    if reply.verdict.Took? && r.kind.DeclareQueue? then
      && r.payload.DeclarePayload?
      && NameKey(r.payload.resource, r.payload.name) !in s.names
      && reply.state.names == s.names[NameKey(r.payload.resource, r.payload.name) := s.ids.queue]
      && reply.state.ids.queue == s.ids.queue + 1
      && s.ids.queue in reply.state.queues && KeyOf(reply.state.queues[s.ids.queue]) == NameKey(r.payload.resource, r.payload.name)
    else reply.state.names == s.names && reply.state.ids.queue == s.ids.queue
  }

  lemma PlacedName(c: Config, s: State, r: Request, replaying: bool)
    requires r.payload.DeclarePayload? && CheckDeclaration(c, s, r, replaying).Took?
    ensures r.payload.resource in s.resources && NameKey(r.payload.resource, r.payload.name) !in s.names
    ensures CheckPlacement(c, s, s.resources[r.payload.resource], r.payload).Ok?
  {
    hide CheckPlacement, Provenances.Classify;
  }

  lemma InstallNames(c: Config, s: State, now: int, r: Request, j: Journal, replaying: bool)
    requires r.kind.DeclareQueue? && r.payload.DeclarePayload? && r.payload.resource in s.resources
    requires NameKey(r.payload.resource, r.payload.name) !in s.names
    ensures NamesAfter(s, r, Reply(Install(c, s, now, r, j, replaying), Took))
  {
    hide Memos.Remember, EffectOf, Score, Provenances.Observe;
  }

  lemma DeclareNames(c: Config, s: State, now: int, r: Request, io: Io, replaying: bool)
    requires r.kind.DeclareQueue? && r.payload.DeclarePayload?
    ensures NamesAfter(s, r, ApplyDeclare(c, s, now, r, io, replaying))
  {
    hide CheckDeclaration, Commit, Install, Score, KeyOf;
    if CheckDeclaration(c, s, r, replaying).Took? {
      PlacedName(c, s, r, replaying);
      InstallNames(c, s, now, r, Commit(c, s.journal, r, io).journal, replaying);
    }
  }

  lemma ApplyNames(c: Config, s: State, r: Request, clock: int, io: Io, replaying: bool)
    ensures NamesAfter(s, r, Apply(c, s, r, clock, io, replaying))
  {
    hide ApplyDeclare, ApplyExisting, Check, Score, KeyOf;
    if !s.shuttingDown && Check(r).Ok? && r.kind.DeclareQueue? {
      assert PayloadMatches(r.kind, r.payload);
      DeclareNames(c, s, Later(s.watermark, clock), r, io, replaying);
    }
  }

  lemma SameKeysAfter(c: Config, s: State, r: Request, replaying: bool, reply: Reply)
    requires QueuesAfter(c, s, r, replaying, reply) && !(reply.verdict.Took? && r.kind.DeclareQueue?)
    ensures SameKeys(s.queues, reply.state.queues)
  {
    hide Handled, HasTarget, CheckDeclaration, Check, Remembered, KeyOf;
    forall i | i in s.queues ensures i in reply.state.queues && KeyOf(reply.state.queues[i]) == KeyOf(s.queues[i]) {
      HandledKey(c, s, r, replaying, reply, i);
    }
  }

  lemma GrownKeys(c: Config, s: State, r: Request, replaying: bool, reply: Reply)
    requires QueuesAfter(c, s, r, replaying, reply) && reply.verdict.Took? && r.kind.DeclareQueue?
    requires s.ids.queue in reply.state.queues
    ensures reply.state.queues.Keys == s.queues.Keys + {s.ids.queue}
    ensures forall i :: i in s.queues ==> KeyOf(reply.state.queues[i]) == KeyOf(s.queues[i])
  {
    hide Handled, HasTarget, CheckDeclaration, Check, Remembered, KeyOf;
    forall i | i in s.queues ensures i in reply.state.queues && KeyOf(reply.state.queues[i]) == KeyOf(s.queues[i]) {
      HandledKey(c, s, r, replaying, reply, i);
    }
  }

  /** Room for one more. */
  predicate HasRoom(c: Config, queues: map<Id, Queue>, resource: Id) {
    |queues| < c.limits.maxQueues && |QueuesOf(queues, resource)| < c.limits.maxQueuesPerResource
  }

  lemma PlacedHasRoom(c: Config, s: State, res: Resource, p: Payload)
    requires p.DeclarePayload? && CheckPlacement(c, s, res, p).Ok?
    ensures HasRoom(c, s.queues, p.resource)
  {
    hide FindClass, FindPool;
  }

  /** The queues with one more under an unused name. */
  predicate OneMore(queues: map<Id, Queue>, next: map<Id, Queue>, id: Id, key: NameKey) {
    && id !in queues && next.Keys == queues.Keys + {id} && KeyOf(next[id]) == key
    && forall i :: i in queues ==> KeyOf(next[i]) == KeyOf(queues[i])
  }

  lemma OneMoreMembers(queues: map<Id, Queue>, next: map<Id, Queue>, id: Id, key: NameKey, r: Id, i: Id)
    requires OneMore(queues, next, id, key)
    ensures i in QueuesOf(next, r) <==> i in QueuesOf(queues, r) || (i == id && r == key.resource)
    ensures id !in QueuesOf(queues, r)
  {
    assert i in next.Keys <==> i in queues.Keys || i == id;
  }

  lemma OneMoreOf(queues: map<Id, Queue>, next: map<Id, Queue>, id: Id, key: NameKey, r: Id)
    requires OneMore(queues, next, id, key)
    ensures |QueuesOf(next, r)| == |QueuesOf(queues, r)| + if r == key.resource then 1 else 0
  {
    hide QueuesOf, OneMore;
    forall i ensures i in QueuesOf(next, r) <==> i in QueuesOf(queues, r) || (i == id && r == key.resource) {
      OneMoreMembers(queues, next, id, key, r, i);
    }
    OneMoreMembers(queues, next, id, key, r, id);
    assert QueuesOf(next, r) == QueuesOf(queues, r) + if r == key.resource then {id} else {};
  }

  lemma OneMoreCapacity(c: Config, queues: map<Id, Queue>, next: map<Id, Queue>, id: Id, key: NameKey)
    requires WithinCapacity(c, queues) && HasRoom(c, queues, key.resource) && OneMore(queues, next, id, key)
    ensures WithinCapacity(c, next)
  {
    hide QueuesOf, KeyOf;
    assert |next.Keys| == |next| && |queues.Keys| == |queues|;
    forall r ensures |QueuesOf(next, r)| <= c.limits.maxQueuesPerResource {
      OneMoreOf(queues, next, id, key, r);
    }
  }

  lemma OneMoreFaithful(names: map<NameKey, Id>, queues: map<Id, Queue>, next: map<Id, Queue>, id: Id, key: NameKey)
    requires Faithful(names, queues) && key !in names && OneMore(queues, next, id, key)
    ensures Faithful(names[key := id], next)
  {
    hide KeyOf;
  }

  lemma OneMoreGreatest(queues: map<Id, Queue>, next: map<Id, Queue>, id: Id, key: NameKey)
    requires OneMore(queues, next, id, key) && id >= 1 && IsGreatest(id - 1, queues.Keys)
    ensures IsGreatest(id, next.Keys)
  {
    hide KeyOf;
  }

  lemma OneMoreIndexed(c: Config, s: State, next: State, key: NameKey)
    requires Indexed(c, s) && key !in s.names && HasRoom(c, s.queues, key.resource)
    requires OneMore(s.queues, next.queues, s.ids.queue, key)
    requires next.names == s.names[key := s.ids.queue] && next.ids.queue == s.ids.queue + 1
    ensures Indexed(c, next)
  {
    hide Faithful, WithinCapacity, HasRoom, OneMore, IsGreatest;
    assert IsGreatest(s.ids.queue, next.queues.Keys) by {
      OneMoreGreatest(s.queues, next.queues, s.ids.queue, key);
    }
    OneMoreCapacity(c, s.queues, next.queues, s.ids.queue, key);
    OneMoreFaithful(s.names, s.queues, next.queues, s.ids.queue, key);
  }

  lemma ApplyIndexed(c: Config, s: State, r: Request, clock: int, io: Io, replaying: bool)
    requires Indexed(c, s) && Counted(s)
    ensures Indexed(c, Apply(c, s, r, clock, io, replaying).state)
  {
    hide Apply, Indexed, Handled, CheckDeclaration, Check, Remembered, CheckPlacement, HasRoom, KeyOf;
    var reply := Apply(c, s, r, clock, io, replaying);
    ApplyQueues(c, s, r, clock, io, replaying);
    ApplyNames(c, s, r, clock, io, replaying);
    if reply.verdict.Took? && r.kind.DeclareQueue? {
      GrownKeys(c, s, r, replaying, reply);
      PlacedName(c, s, r, replaying);
      PlacedHasRoom(c, s, s.resources[r.payload.resource], r.payload);
      OneMoreIndexed(c, s, reply.state, NameKey(r.payload.resource, r.payload.name));
    } else {
      SameKeysAfter(c, s, r, replaying, reply);
      SameKeysIndexed(c, s, reply.state);
    }
  }

  // ---- one call -------------------------------------------------------------

  lemma PublishNames(c: Config, s: State, id: Id, edit: Edit, queues: map<Id, Queue>, clock: int, io: Io)
    ensures Publish(c, s, id, edit, queues, clock, io).state.names == s.names
    ensures Publish(c, s, id, edit, queues, clock, io).state.ids == edit.ids
  {
    hide Persist, StillHealthy;
  }

  lemma TopologyNames(c: Config, s: State, e: Event)
    requires e.GrantTo? || e.NewClass? || e.NewPool? || e.BackendDied?
    ensures Step(c, s, e).state.names == s.names && SameNumbers(s.ids, Step(c, s, e).state.ids)
  {
    hide Apply, DeclareResource, AddBackend, AdvanceEpoch, InvalidateEvidence, Refresh, Explain, Reserve, CommitPlan, AbortPlan, Compact,
      Shutdown, Recover, Publish, GrantEdit, ClassEdit, PoolEdit, DeathEdit, Unbound, NextClass, HasBackend, Deltas.EditOk;
    assert Unfold(c, s, e);
    forall d: Config, id, edit, queues, clock, io
      ensures Publish(d, s, id, edit, queues, clock, io).state.names == s.names
      ensures Publish(d, s, id, edit, queues, clock, io).state.ids == edit.ids
    {
      PublishNames(d, s, id, edit, queues, clock, io);
    }
    EditNumbers(c, s, e);
  }

  /** No queue was numbered and no fence token drawn. */
  predicate SameNumbers(ids: Ids, next: Ids) {
    next.queue == ids.queue && next.fence == ids.fence
  }

  lemma EditNumbers(c: Config, s: State, e: Event)
    ensures e.GrantTo? ==> SameNumbers(s.ids, GrantEdit(c, s, e.resource, e.grant, e.principal, e.epoch, e.sender).ids)
    ensures e.NewPool? ==> SameNumbers(s.ids, PoolEdit(c, s, e.resource, e.name, e.capacity, e.principal, e.epoch, e.sender).ids)
    ensures e.NewClass? ==> SameNumbers(s.ids, ClassEdit(c, s, e.resource, e.name, e.priority, e.qos, e.principal, e.epoch, e.sender).ids)
    ensures e.BackendDied? ==> forall id | id in s.resources ::
      SameNumbers(s.ids, DeathEdit(s, id, e.backend, e.incarnation, e.principal, e.epoch).ids)
  {
    hide GrantEdit, PoolEdit, ClassEdit, DeathEdit, Bury;
    match e
    case GrantTo(_, _, _, _, _, _, _) => Deltas.GrantEditOk(c, s, e);
    case NewPool(_, _, _, _, _, _, _, _) => Deltas.PoolEditOk(c, s, e);
    case NewClass(_, _, _, _, _, _, _, _, _) => Deltas.ClassEditOk(c, s, e);
    case BackendDied(_, _, _, _, _, _) =>
      forall id | id in s.resources ensures SameNumbers(s.ids, DeathEdit(s, id, e.backend, e.incarnation, e.principal, e.epoch).ids) {
        Deltas.DeathEditOk(s, e, id);
      }
    case _ =>
  }

  lemma ResourceNames(c: Config, s: State, e: Event)
    requires e.NewResource?
    ensures Step(c, s, e).state.names == s.names && SameNumbers(s.ids, Step(c, s, e).state.ids)
  {
    hide Apply, GrantCapabilities, DeclareClass, DeclarePool, AddBackend, MarkDead, AdvanceEpoch, InvalidateEvidence, Refresh,
      Explain, Reserve, CommitPlan, AbortPlan, Compact, Shutdown, Recover, Persist, StillHealthy, CheckNewResource;
    assert Unfold(c, s, e);
  }

  lemma BackendNames(c: Config, s: State, e: Event)
    requires e.NewBackend?
    ensures Step(c, s, e).state.names == s.names && SameNumbers(s.ids, Step(c, s, e).state.ids)
  {
    hide Apply, DeclareResource, GrantCapabilities, DeclareClass, DeclarePool, MarkDead, AdvanceEpoch, InvalidateEvidence,
      Refresh, Explain, Reserve, CommitPlan, AbortPlan, Compact, Shutdown, Recover, Persist, StillHealthy, CheckBackend,
      WithBackend;
    assert Unfold(c, s, e);
  }

  lemma AdvanceNames(c: Config, s: State, e: Event)
    requires e.NewEpoch?
    ensures Step(c, s, e).state.names == s.names && SameNumbers(s.ids, Step(c, s, e).state.ids)
  {
    hide Apply, DeclareResource, GrantCapabilities, DeclareClass, DeclarePool, AddBackend, MarkDead, InvalidateEvidence,
      Refresh, Explain, Reserve, CommitPlan, AbortPlan, Compact, Shutdown, Recover, Persist, StillHealthy, CheckAdvance,
      Superseded, InEpoch;
    assert Unfold(c, s, e);
  }

  lemma QuietNames(c: Config, s: State, e: Event)
    requires e.Discredit? || e.RefreshAll? || e.ExplainOne? || e.AbortApply? || e.CompactJournal? || e.Stop?
    ensures Step(c, s, e).state.names == s.names && SameNumbers(s.ids, Step(c, s, e).state.ids)
  {
    hide Apply, DeclareResource, GrantCapabilities, DeclareClass, DeclarePool, AddBackend, MarkDead, AdvanceEpoch, Reserve,
      CommitPlan, Recover, Persist, StillHealthy, CheckInvalidation, Refreshed, Discredited, Snapshot;
    assert Unfold(c, s, e);
  }

  lemma ReserveNames(c: Config, s: State, e: Event)
    requires e.PlanApply?
    ensures Step(c, s, e).state.names == s.names && SameNumbers(s.ids, Step(c, s, e).state.ids)
  {
    hide Apply, DeclareResource, GrantCapabilities, DeclareClass, DeclarePool, AddBackend, MarkDead, AdvanceEpoch,
      InvalidateEvidence, Refresh, Explain, CommitPlan, AbortPlan, Compact, Shutdown, Recover, Persist, StillHealthy,
      CheckReservation, NewPlan, Provenances.Observe;
    assert Unfold(c, s, e);
  }

  lemma CommitNames(c: Config, s: State, e: Event)
    requires e.CommitApply?
    ensures Step(c, s, e).state.names == s.names && Step(c, s, e).state.ids.queue == s.ids.queue
  {
    hide Apply, DeclareResource, GrantCapabilities, DeclareClass, DeclarePool, AddBackend, MarkDead, AdvanceEpoch,
      InvalidateEvidence, Refresh, Explain, Reserve, AbortPlan, Compact, Shutdown, Recover, Persist, StillHealthy,
      ApplyExisting, CheckPlan, Score, Succeeded;
    assert Unfold(c, s, e);
  }

  lemma OtherNames(c: Config, s: State, e: Event)
    requires !e.Mutate? && !e.Restart?
    ensures Step(c, s, e).state.names == s.names && Step(c, s, e).state.ids.queue == s.ids.queue
    ensures !e.CommitApply? ==> Step(c, s, e).state.ids.fence == s.ids.fence
  {
    hide Step;
    if e.GrantTo? || e.NewClass? || e.NewPool? || e.BackendDied? {
      TopologyNames(c, s, e);
    } else if e.NewResource? {
      ResourceNames(c, s, e);
    } else if e.NewBackend? {
      BackendNames(c, s, e);
    } else if e.NewEpoch? {
      AdvanceNames(c, s, e);
    } else if e.PlanApply? {
      ReserveNames(c, s, e);
    } else if e.CommitApply? {
      CommitNames(c, s, e);
    } else {
      QuietNames(c, s, e);
    }
  }

  lemma OtherKeys(c: Config, s: State, e: Event, reply: Reply)
    requires QueueSteps(c, s, e, reply) && !e.Mutate?
    ensures SameKeys(s.queues, reply.state.queues)
  {
    hide Handled, Marked, HasTarget, Installed, KeyOf;
    forall i | i in s.queues ensures i in reply.state.queues && KeyOf(reply.state.queues[i]) == KeyOf(s.queues[i]) {
      assert QueueStep(c, s, e, reply, i);
      if RequestOf(s, e).Some? {
        HandledKey(c, s, RequestOf(s, e).value, false, reply, i);
      } else {
        MarkedKey(c, s, e, reply.state, i);
      }
    }
  }

  lemma StepIndexed(c: Config, s: State, e: Event)
    requires Inv(c, s) && Indexed(c, s) && !e.Restart?
    ensures Indexed(c, Step(c, s, e).state)
  {
    hide Step, Inv, Indexed, QueueSteps, ResourceSteps, CoreStep, JournalStep, Counted;
    Epochs.InvCounted(c, s);
    if e.Mutate? {
      MutateIndexed(c, s, e);
    } else {
      Deltas.StepDelta(c, s, e);
      OtherNames(c, s, e);
      OtherKeys(c, s, e, Step(c, s, e));
      SameKeysIndexed(c, s, Step(c, s, e).state);
    }
  }

  lemma MutateIndexed(c: Config, s: State, e: Event)
    requires Counted(s) && Indexed(c, s) && e.Mutate?
    ensures Indexed(c, Step(c, s, e).state)
  {
    hide Indexed, Apply, DeclareResource, GrantCapabilities, DeclareClass, DeclarePool, AddBackend, MarkDead, AdvanceEpoch,
      InvalidateEvidence, Refresh, Explain, Reserve, CommitPlan, AbortPlan, Compact, Shutdown, Recover;
    assert Unfold(c, s, e);
    ApplyIndexed(c, s, e.request, e.clock, e.io, false);
  }

  // ---- rebuilding -----------------------------------------------------------

  predicate DistinctKeys(queues: map<Id, Queue>) {
    forall i, j :: i in queues && j in queues && KeyOf(queues[i]) == KeyOf(queues[j]) ==> i == j
  }

  ghost predicate Good(c: Config, queues: map<Id, Queue>) {
    DistinctKeys(queues) && WithinCapacity(c, queues)
  }

  lemma IndexedGood(c: Config, s: State)
    requires Indexed(c, s)
    ensures Good(c, s.queues)
  {
    hide KeyOf, WithinCapacity, IsGreatest;
  }

  /** With distinct names, rebuilding the index from the records gives it back. */
  lemma NamesOfFaithful(queues: map<Id, Queue>)
    requires DistinctKeys(queues) && forall i :: i in queues ==> queues[i].def.id == i
    ensures Faithful(NamesOf(queues), queues)
  {
    hide KeyOf;
    var names := NamesOf(queues);
    forall i | i in queues ensures KeyOf(queues[i]) in names && names[KeyOf(queues[i])] == i {
      assert i in Bearers(queues, KeyOf(queues[i]));
    }
    forall k | k in names ensures names[k] in queues && KeyOf(queues[names[k]]) == k {
      var i :| i in queues && KeyOf(queues[i]) == k;
      assert i in Bearers(queues, k);
    }
  }

  lemma FaithfulUnique(names: map<NameKey, Id>, other: map<NameKey, Id>, queues: map<Id, Queue>)
    requires Faithful(names, queues) && Faithful(other, queues)
    ensures names == other
  {
    hide KeyOf;
    assert names.Keys == other.Keys;
  }

  lemma SelfKeyedIds(queues: map<Id, Queue>)
    requires forall i :: i in queues ==> queues[i].def.id == i
    ensures (set i | i in queues :: queues[i].def.id) == queues.Keys
  {
    assert forall i | i in queues.Keys :: queues[i].def.id == i;
  }

  lemma RebuildIndexed(c: Config, s: State)
    requires Good(c, s.queues) && SelfKeyed(s)
    ensures Indexed(c, Rebuild(s))
  {
    hide WithinCapacity, Faithful, NamesOf, QueuesOf, WithCount;
    NamesOfFaithful(s.queues);
    SelfKeyedIds(s.queues);
    RebuildRest(s);
  }

  /** In a state whose index agrees with its records, rebuilding changes neither
      the index nor the next identity. */
  lemma RebuildIsFixpoint(c: Config, s: State)
    requires Indexed(c, s) && SelfKeyed(s)
    ensures Rebuild(s).names == s.names && Rebuild(s).ids.queue == s.ids.queue && Rebuild(s).queues == s.queues
  {
    hide WithinCapacity, Faithful, NamesOf, QueuesOf, WithCount;
    IndexedGood(c, s);
    NamesOfFaithful(s.queues);
    FaithfulUnique(NamesOf(s.queues), s.names, s.queues);
    SelfKeyedIds(s.queues);
    GreatestUnique(s.ids.queue - 1, s.queues.Keys);
  }

  // ---- the journal ----------------------------------------------------------

  /** The queues that snapshot records restore. */
  function StoredQueues(records: seq<Record>): map<Id, Queue> {
    if records == [] then map[]
    else
      var before := StoredQueues(records[..|records| - 1]);
      match records[|records| - 1]
      case QueueState(q) => if StorableQueue(q) then before[q.def.id := Restored(q)] else before
      case _ => before
  }

  lemma {:induction false} LoadStored(records: seq<Record>, header: nat)
    ensures Load(records, header).queues == StoredQueues(records)
  {
    hide StorableQueue, StorableResource, Restored, Decodable;
    if records != [] {
      LoadStored(records[..|records| - 1], header);
    }
  }

  ghost predicate RecordsGood(c: Config, records: seq<Record>) {
    forall n :: 0 <= n <= |records| ==> Good(c, StoredQueues(records[..n]))
  }

  lemma {:induction false} StoredUnchanged(records: seq<Record>, next: seq<Record>, n: nat)
    requires Quiescence.AddsNoQueue(records, next) && |records| <= n <= |next|
    ensures StoredQueues(next[..n]) == StoredQueues(records)
  {
    hide StorableQueue, Restored;
    if n == |records| {
      assert next[..n] == records;
    } else {
      StoredUnchanged(records, next, n - 1);
      assert next[..n][..n - 1] == next[..n - 1];
      assert !next[..n][n - 1].QueueState?;
    }
  }

  lemma GoodOn(c: Config, records: seq<Record>, next: seq<Record>)
    requires RecordsGood(c, records) && Quiescence.AddsNoQueue(records, next)
    ensures RecordsGood(c, next)
  {
    hide Good, StoredQueues;
    forall n | 0 <= n <= |next| ensures Good(c, StoredQueues(next[..n])) {
      if n <= |records| {
        assert next[..n] == records[..n];
      } else {
        StoredUnchanged(records, next, n);
        assert records[..|records|] == records;
      }
    }
  }

  /** A part of a collection, names kept. */
  predicate PartOf(queues: map<Id, Queue>, whole: map<Id, Queue>) {
    forall i :: i in queues ==> i in whole && KeyOf(queues[i]) == KeyOf(whole[i])
  }

  lemma PartGood(c: Config, queues: map<Id, Queue>, whole: map<Id, Queue>)
    requires PartOf(queues, whole) && Good(c, whole)
    ensures Good(c, queues)
  {
    assert DistinctKeys(queues);
    forall r ensures |QueuesOf(queues, r)| <= c.limits.maxQueuesPerResource {
      PartCount(queues, whole, r);
    }
    assert queues.Keys <= whole.Keys;
    SubsetSize(queues.Keys, whole.Keys);
    assert |queues.Keys| == |queues| && |whole.Keys| == |whole|;
  }

  lemma PartCount(queues: map<Id, Queue>, whole: map<Id, Queue>, r: Id)
    requires PartOf(queues, whole)
    ensures |QueuesOf(queues, r)| <= |QueuesOf(whole, r)|
  {
    assert QueuesOf(queues, r) <= QueuesOf(whole, r);
    SubsetSize(QueuesOf(queues, r), QueuesOf(whole, r));
  }

  lemma {:induction false} SubsetSize(a: set<Id>, b: set<Id>)
    requires a <= b
    ensures |a| <= |b|
  {
    if a != {} {
      var x :| x in a;
      SubsetSize(a - {x}, b - {x});
    }
  }

  /** Queue records of these very queues. */
  predicate Records(records: seq<Record>, queues: map<Id, Queue>) {
    forall k :: 0 <= k < |records| && records[k].QueueState? ==>
      records[k].queue.def.id in queues && records[k].queue == queues[records[k].queue.def.id]
  }

  lemma {:induction false} StoredPart(records: seq<Record>, queues: map<Id, Queue>)
    requires Records(records, queues)
    ensures PartOf(StoredQueues(records), queues)
  {
    hide StorableQueue;
    if records != [] {
      StoredPart(records[..|records| - 1], queues);
    }
  }

  lemma SnapshotRecords(s: State)
    requires SelfKeyed(s)
    ensures Records(Snapshot(s), s.queues)
  {
    hide Ascending;
    forall i ensures i in Ascending(s.queues.Keys) ==> i in s.queues {
      AscendingMembers(s.queues.Keys, i);
    }
  }

  lemma SnapshotGood(c: Config, s: State)
    requires Indexed(c, s) && SelfKeyed(s)
    ensures RecordsGood(c, Snapshot(s))
  {
    hide Good, Snapshot, Indexed, SelfKeyed, StoredQueues;
    var records := Snapshot(s);
    SnapshotRecords(s);
    IndexedGood(c, s);
    forall n | 0 <= n <= |records| ensures Good(c, StoredQueues(records[..n])) {
      assert Records(records[..n], s.queues);
      StoredPart(records[..n], s.queues);
      PartGood(c, StoredQueues(records[..n]), s.queues);
    }
  }

  lemma StepAddsNoQueue(c: Config, s: State, e: Event, next: State)
    requires JournalStep(c, s, e, next) && !e.CompactJournal?
    ensures Quiescence.AddsNoQueue(s.journal.records, next.journal.records)
  {
    hide Snapshot, BackendsStep;
    assert forall k | |s.journal.records| <= k < |next.journal.records| :: RecordStep(s, e, next.journal.records[k]);
  }

  lemma StepRecordsGood(c: Config, s: State, e: Event, next: State)
    requires JournalStep(c, s, e, next) && RecordsGood(c, s.journal.records) && Indexed(c, s) && SelfKeyed(s)
    ensures RecordsGood(c, next.journal.records)
  {
    hide RecordsGood, Indexed, SelfKeyed, Snapshot, RecordStep, Quiescence.AddsNoQueue;
    if e.CompactJournal? {
      SnapshotGood(c, s);
    } else {
      StepAddsNoQueue(c, s, e, next);
      GoodOn(c, s.journal.records, next.journal.records);
    }
  }

  // ---- recovery -------------------------------------------------------------

  lemma ReplayableSelfKeyed(c: Config, s: State, epoch: nat)
    requires Replayable(c, s, epoch)
    ensures SelfKeyed(s) && Counted(s)
  {
    hide EpochsAgree, RecordsSound, Soundness.Sound, Numbered;
  }

  lemma BaseIndexed(c: Config, l: Loaded, j: Journal, boot: Boot)
    requires Good(c, l.queues) && LoadedSound(c, l, NextEpoch(l.epoch))
    ensures Indexed(c, Base(l, j, boot))
  {
    hide Rebuild, Indexed, Good, Soundness.Sound, CommitKind, AllDead;
    var epoch := NextEpoch(l.epoch);
    var raw := Blank(boot).(
      epoch := epoch, incarnation := l.incarnation, journal := j, queues := l.queues,
      resources := AllAdopted(l.resources, epoch));
    RebuildIndexed(c, raw);
  }

  lemma {:induction false} ReplayIndexed(c: Config, s: State, order: seq<Request>, feed: seq<Moment>, epoch: nat)
    requires Indexed(c, s) && Replayable(c, s, epoch)
    ensures Indexed(c, Replay(c, s, order, feed))
  {
    hide Replayable, Indexed, Apply, Counted, SelfKeyed;
    if order != [] {
      var n := |order| - 1;
      var before := Replay(c, s, order[..n], feed);
      ReplayIndexed(c, s, order[..n], feed, epoch);
      ReplayReplayable(c, s, order[..n], feed, epoch);
      ReplayableSelfKeyed(c, before, epoch);
      ApplyIndexed(c, before, order[n], MomentAt(feed, n).clock, MomentAt(feed, n).io, true);
    }
  }

  lemma DistrustGood(c: Config, s: State, outstanding: map<Attempt, Request>)
    requires Indexed(c, s) && SelfKeyed(s)
    ensures Good(c, Distrust(s, outstanding).queues) && SelfKeyed(Distrust(s, outstanding))
  {
    hide Indexed, Good, Orphaned, Occupancies.Invalidate;
    IndexedGood(c, s);
    PartGood(c, Distrust(s, outstanding).queues, s.queues);
  }

  lemma AnnounceIndexed(c: Config, s: State, watermark: int)
    requires Indexed(c, s)
    ensures Indexed(c, Announce(s).(watermark := watermark))
  {
    hide Faithful, WithinCapacity, IsGreatest;
  }

  lemma RecoverIndexed(c: Config, j: Journal, boot: Boot, feed: seq<Moment>, clock: int)
    requires c.hasJournal && Recover(c, j, boot, feed, clock).verdict.Took?
    requires RecordsSound(c, j.records, Load(j.records, j.headerEpoch).epoch) && RecordsGood(c, j.records)
    ensures Indexed(c, Recover(c, j, boot, feed, clock).state)
    ensures RecordsGood(c, Recover(c, j, boot, feed, clock).state.journal.records)
  {
    hide RecordsSound, LoadedSound, Replayable, Load, Base, Replay, Distrust, Rebuild, Announce, Indexed, Good, SelfKeyed, StoredQueues, Counted,
      Quiescence.AddsNoQueue;
    var l := Load(j.records, j.headerEpoch);
    var epoch := NextEpoch(l.epoch);
    LoadStored(j.records, j.headerEpoch);
    assert j.records[..|j.records|] == j.records;
    RecordsSoundLater(c, j.records, l.epoch, epoch);
    LoadSound(c, j.records, j.headerEpoch, epoch);
    BaseReplayable(c, l, j, boot);
    BaseIndexed(c, l, j, boot);
    var base := Base(l, j, boot);
    ReplayReplayable(c, base, l.order, feed, epoch);
    ReplayIndexed(c, base, l.order, feed, epoch);
    var replayed := Replay(c, base, l.order, feed);
    ReplayableSelfKeyed(c, replayed, epoch);
    DistrustGood(c, replayed, l.outstanding);
    RebuildIndexed(c, Distrust(replayed, l.outstanding));
    var rebuilt := Rebuild(Distrust(replayed, l.outstanding));
    AnnounceIndexed(c, rebuilt, Later(Announce(rebuilt).watermark, clock));
    Quiescence.RecoverAddsNoQueue(c, j, boot, feed, clock);
    GoodOn(c, j.records, Recover(c, j, boot, feed, clock).state.journal.records);
  }

  ghost predicate NameInv(c: Config, s: State) {
    Indexed(c, s) && RecordsGood(c, s.journal.records)
  }

  lemma BlankNames(c: Config, boot: Boot)
    ensures NameInv(c, Blank(boot)) && RecordsGood(c, [])
  {
    hide KeyOf;
  }

  lemma SurvivorGood(c: Config, j: Journal, keep: nat)
    requires RecordsGood(c, j.records)
    ensures RecordsGood(c, Survivor(j, keep).records)
  {
    hide Good, StoredQueues;
    var kept := Survivor(j, keep).records;
    assert forall n | 0 <= n <= |kept| :: kept[..n] == j.records[..n];
  }

  lemma RestartNames(c: Config, s: State, e: Event)
    requires Inv(c, s) && NameInv(c, s) && e.Restart? && Step(c, s, e).verdict.Took?
    ensures NameInv(c, Step(c, s, e).state)
  {
    hide RecordsSound, Load, Base, Replay, Distrust, Rebuild, Announce, Apply, Survivor, Inv, Indexed, RecordsGood;
    assert Unfold(c, s, e);
    if c.hasJournal {
      SurvivorSound(c, s, e.keep);
      SurvivorGood(c, s.journal, e.keep);
      RecoverIndexed(c, Survivor(s.journal, e.keep), e.boot, e.feed, e.clock);
    } else {
      BlankNames(c, e.boot);
    }
  }

  lemma StartNames(c: Config, boot: Boot)
    ensures NameInv(c, Start(c, boot))
  {
    hide Inv, Base, Replay, Distrust, Rebuild, Announce, Apply, Indexed, RecordsGood, RecordSound;
    BlankNames(c, boot);
    if c.hasJournal {
      RecoverIndexed(c, Journal([], 0, 0), boot, [], 0);
    }
  }

  lemma InvSelfKeyed(c: Config, s: State)
    requires Inv(c, s)
    ensures SelfKeyed(s)
  {
    hide EpochsAgree, RecordsSound, Soundness.Sound, Numbered, EpochStored;
  }

  // ---- runs -----------------------------------------------------------------

  lemma {:induction false} ExecNames(c: Config, s: State, es: seq<Event>)
    requires Inv(c, s) && NameInv(c, s) && Serves(c, s, es)
    ensures NameInv(c, Exec(c, s, es))
  {
    hide Step, Inv, Indexed, RecordsGood, QueueSteps, ResourceSteps, CoreStep, JournalStep, Counted, SelfKeyed;
    if es != [] {
      var n := |es| - 1;
      var before := Exec(c, s, es[..n]);
      ExecNames(c, s, es[..n]);
      ExecInv(c, s, es[..n]);
      if es[n].Restart? {
        RestartNames(c, before, es[n]);
      } else {
        StepIndexed(c, before, es[n]);
        InvSelfKeyed(c, before);
        Epochs.InvCounted(c, before);
        Deltas.StepDelta(c, before, es[n]);
        StepRecordsGood(c, before, es[n], Step(c, before, es[n]).state);
      }
    }
  }

  /** In every reachable state, restarts included, the index is exactly the
      names of the queues, no two queues share a name, capacities hold, the next
      identity is one above the greatest, and rebuilding from the records would
      change nothing. */
  lemma IndexAgrees(c: Config, boot: Boot, es: seq<Event>)
    requires Serves(c, Start(c, boot), es)
    ensures var s := Exec(c, Start(c, boot), es);
      Indexed(c, s) && DistinctKeys(s.queues) && Rebuild(s).names == s.names && Rebuild(s).ids.queue == s.ids.queue
  {
    hide Step, Inv, Start, Indexed, DistinctKeys, Rebuild, RecordsGood, SelfKeyed;
    StartInv(c, boot);
    StartNames(c, boot);
    ExecInv(c, Start(c, boot), es);
    ExecNames(c, Start(c, boot), es);
    var s := Exec(c, Start(c, boot), es);
    InvSelfKeyed(c, s);
    IndexedGood(c, s);
    RebuildIsFixpoint(c, s);
  }

  /** Within one life a name, once taken, belongs to the same queue for good. */
  lemma {:induction false} NamesNeverRecycled(c: Config, s: State, es: seq<Event>, m: nat, key: NameKey)
    requires Inv(c, s) && NameInv(c, s) && OneLife(es) && m <= |es| && key in Exec(c, s, es[..m]).names
    ensures key in Exec(c, s, es).names && Exec(c, s, es).names[key] == Exec(c, s, es[..m]).names[key]
  {
    hide Step, Inv, NameInv;
    if m == |es| {
      assert es[..m] == es;
    } else {
      var n := |es| - 1;
      assert es[..n][..m] == es[..m];
      NamesNeverRecycled(c, s, es[..n], m, key);
      NameKept(c, Exec(c, s, es[..n]), es[n], key);
    }
  }

  lemma NameKept(c: Config, s: State, e: Event, key: NameKey)
    requires !e.Restart? && key in s.names
    ensures key in Step(c, s, e).state.names && Step(c, s, e).state.names[key] == s.names[key]
  {
    hide Apply, DeclareResource, GrantCapabilities, DeclareClass, DeclarePool, AddBackend, MarkDead, AdvanceEpoch,
      InvalidateEvidence, Refresh, Explain, Reserve, CommitPlan, AbortPlan, Compact, Shutdown, Recover;
    if e.Mutate? {
      assert Unfold(c, s, e);
      ApplyNames(c, s, e.request, e.clock, e.io, false);
    } else {
      OtherNames(c, s, e);
    }
  }
}
