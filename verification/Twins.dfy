/** A mutation taken live and the same mutation replayed: what they leave behind
    agrees in everything durable, or at least in shape. */
module Twins {
  import opened Status
  import opened Entities
  import opened Authorities
  import opened Lifecycles
  import opened Mutations
  import opened Work
  import opened Machine
  import opened Evolution
  import opened Recovery
  import opened Run
  import opened Steps
  import opened Reach
  import Names
  import Quiescence
  import Deltas
  import opened GoodRuns
  import Soundness
  import Drains
  import Laws
  import Backends
  import Memos
  import Occupancies
  import Provenances

  // ---- what is durable ------------------------------------------------------

  /** The durable part of two queue records agrees: definition up to the time of
      declaration, lifecycle, fence and failure. */
  predicate SameDurable(q: Queue, p: Queue) {
    && p.def == q.def.(declaredAt := p.def.declaredAt)
    && p.lifecycle == q.lifecycle && p.failure == q.failure && p.flags.fenced == q.flags.fenced
    && p.fence.fenced == q.fence.fenced && p.fence.token == q.fence.token && p.fence.fencedBy == q.fence.fencedBy
    && p.fence.reason == q.fence.reason
  }

  lemma SameDurableChain(a: Queue, b: Queue, d: Queue)
    requires SameDurable(a, b) && SameDurable(b, d)
    ensures SameDurable(a, d) && SameDurable(b, a)
  {
  }

  /** The second result follows the first. */
  predicate Follows(w: Result, w': Result) {
    w.Done? ==> w'.Done? && SameDurable(w.queue, w'.queue) && w'.tokens == w.tokens
  }

  lemma ValidateTwin(env: Env, env': Env, q: Queue, p: Queue)
    requires SameDurable(q, p) && env'.resource.classes == env.resource.classes
    ensures Follows(Validate(env, q), Validate(env', p)) && Follows(Activate(env, q), Activate(env', p))
  {
    hide CheckBinding;
  }

  lemma RedefineTwin(q: Queue, p: Queue, def: Definition, def': Definition)
    requires SameDurable(q, p) && def' == def.(declaredAt := def'.declaredAt)
    ensures Follows(Redefine(q, def), Redefine(p, def'))
  {
    hide Occupancies.Invalidate;
  }

  lemma DefinitionTwin(env: Env, env': Env, q: Queue, p: Queue, binding: ClassBinding, limits: Thresholds, owner: Id)
    requires SameDurable(q, p) && env'.resource.classes == env.resource.classes
    ensures Follows(Rebind(env, q, binding), Rebind(env', p, binding))
    ensures Follows(Work.SetLimits(q, limits), Work.SetLimits(p, limits)) && Follows(Transfer(q, owner), Transfer(p, owner))
  {
    hide CheckBinding, Redefine;
    RedefineTwin(q, p, q.def.(cls := binding), p.def.(cls := binding));
    RedefineTwin(q, p, q.def.(thresholds := limits), p.def.(thresholds := limits));
    RedefineTwin(q, p, q.def.(owner := owner), p.def.(owner := owner));
  }

  lemma DrainTwin(env: Env, env': Env, q: Queue, p: Queue, r: Request)
    requires SameDurable(q, p)
    ensures Follows(BeginDrain(env, q, r), BeginDrain(env', p, r)) && Follows(EndDrain(q), EndDrain(p))
  {
  }

  lemma FenceTwin(env: Env, env': Env, q: Queue, p: Queue, r: Request, reason: Text)
    requires SameDurable(q, p) && env'.tokens == env.tokens
    ensures Follows(Raise(env, q, r, reason), Raise(env', p, r, reason)) && Follows(Lower(q), Lower(p))
  {
    hide Bounded;
  }

  lemma EndTwin(q: Queue, p: Queue, reason: Text)
    requires SameDurable(q, p)
    ensures Follows(Work.Fail(q, reason), Work.Fail(p, reason)) && Follows(Retire(q), Retire(p))
  {
    hide Bounded;
  }

  /** Quiescing a quiesced queue changes nothing, so it needs no evidence. */
  lemma RepeatedQuiesceTwin(c: Config, env: Env, env': Env, q: Queue, p: Queue)
    requires SameDurable(q, p) && q.lifecycle.Quiesced?
    ensures Follows(Quiesce(c, env, q), Quiesce(c, env', p))
  {
    hide Drains.Assess, Backends.Verify, Backends.FindLive, QueuePolicy;
  }

  /** A durable step reads durable state and topology only. */
  lemma PerformTwin(c: Config, env: Env, env': Env, q: Queue, p: Queue, r: Request)
    requires PayloadMatches(r.kind, r.payload) && Durable(r.kind) && (r.kind.QuiesceQueue? ==> q.lifecycle.Quiesced?)
    requires SameDurable(q, p) && env'.resource.classes == env.resource.classes && env'.tokens == env.tokens
    ensures Follows(Perform(c, env, q, r), Perform(c, env', p, r))
  {
    hide Validate, Activate, Rebind, Work.SetLimits, Transfer, BeginDrain, EndDrain, Raise, Lower, Work.Fail, Retire, SameDurable, Ingest, Submit,
      Acknowledge, Quiesce;
    match r.payload
    case NoPayload =>
      ValidateTwin(env, env', q, p);
      DrainTwin(env, env', q, p, r);
      EndTwin(q, p, []);
      if r.kind.QuiesceQueue? {
        RepeatedQuiesceTwin(c, env, env', q, p);
      }
    case RebindPayload(binding) => DefinitionTwin(env, env', q, p, binding, q.def.thresholds, 0);
    case ThresholdsPayload(limits) => DefinitionTwin(env, env', q, p, q.def.cls, limits, 0);
    case OwnershipPayload(owner) => DefinitionTwin(env, env', q, p, q.def.cls, q.def.thresholds, owner);
    case FencePayload(_, reason) =>
      FenceTwin(env, env', q, p, r, reason);
      EndTwin(q, p, reason);
    case _ =>
  }

  /** Dynamic evidence and plan markers leave the durable part alone. */
  lemma PerformSideways(c: Config, env: Env, q: Queue, r: Request)
    requires PayloadMatches(r.kind, r.payload) && !Durable(r.kind)
    ensures var w := Perform(c, env, q, r); w.Done? ==> SameDurable(q, w.queue) && w.tokens == 0
  {
    hide CheckBinding, Drains.Assess, Backends.Verify, Backends.FindLive, QueuePolicy, SameLife, NoteZero, CheckTransition;
  }

  lemma KeptDurable(c: Config, r: Request, q: Queue, next: Queue)
    requires Kept(c, r, q, next)
    ensures SameDurable(q, next)
  {
    hide MemoGrows;
  }

  lemma MarkedDurable(c: Config, s: State, e: Event, next: State, i: Id)
    requires i in s.queues && Marked(c, s, e, next, i)
    ensures i in next.queues && SameDurable(s.queues[i], next.queues[i])
  {
    hide NextClass, QueuePolicy, Occupancies.Classify, Occupancies.Invalidate;
  }

  lemma WorkedSideways(c: Config, s: State, now: int, q: Queue, r: Request, replaying: bool, next: Queue)
    requires !Durable(r.kind) && Worked(c, s, now, q, r, replaying, next)
    ensures SameDurable(q, next)
  {
    hide Perform, Admitted, Remembered, PayloadMatches, Durable, Kept, SameDurable;
    Soundness.AdmittedResource(c, s, q, r, replaying);
    PerformSideways(c, EnvAt(s, q, now), q, r);
    var w := Perform(c, EnvAt(s, q, now), q, r);
    RememberedKept(c, w.queue, r, Ok, Durable(r.kind) && c.hasJournal);
    KeptDurable(c, r, w.queue, next);
    SameDurableChain(q, w.queue, next);
  }

  /** A mutation that is not durable, or not taken, leaves the durable part of
      every queue alone. */
  lemma HandledSideways(c: Config, s: State, r: Request, replaying: bool, reply: Reply, i: Id)
    requires i in s.queues && Handled(c, s, r, replaying, reply, i)
    requires !Durable(r.kind) || !reply.verdict.Took? || r.queue != i || r.kind.DeclareQueue?
    ensures i in reply.state.queues && SameDurable(s.queues[i], reply.state.queues[i])
  {
    hide Worked, Kept, SameDurable, Durable;
    if reply.verdict.Took? && r.queue == i && !r.kind.DeclareQueue? {
      WorkedSideways(c, s, reply.state.watermark, s.queues[i], r, replaying, reply.state.queues[i]);
    } else {
      KeptDurable(c, r, s.queues[i], reply.state.queues[i]);
    }
  }

  // ---- fence tokens ---------------------------------------------------------

  /** How many fence tokens a mutation draws. */
  lemma PerformTokens(c: Config, env: Env, q: Queue, r: Request)
    requires PayloadMatches(r.kind, r.payload)
    ensures var w := Perform(c, env, q, r); w.Done? && !r.kind.FenceQueue? ==> w.tokens == 0
  {
    hide CheckBinding, Drains.Assess, Backends.Verify, Backends.FindLive, QueuePolicy, SameLife, NoteZero, CheckTransition,
      Occupancies.Invalidate;
  }

  /** With a journal that works, only taken work draws tokens. */
  predicate TokensAfter(c: Config, s: State, now: int, r: Request, t: Turn)
    requires PayloadMatches(r.kind, r.payload) && r.queue in s.queues
  {
    var q := s.queues[r.queue];
    if t.verdict.Took? && q.def.resource in s.resources && Perform(c, EnvAt(s, q, now), q, r).Done? then
      t.fence == s.ids.fence + Perform(c, EnvAt(s, q, now), q, r).tokens
    else t.fence == s.ids.fence
  }

  lemma ExistingTokens(c: Config, s: State, now: int, r: Request, io: Io, replaying: bool)
    requires PayloadMatches(r.kind, r.payload) && r.queue in s.queues && c.hasJournal && io.Good? && Encodable(r)
    ensures TokensAfter(c, s, now, r, ApplyExisting(c, s, now, r, io, replaying))
  {
    hide Perform, Remembered, Allowed, CheckCurrent, Memos.Find, Provenances.Classify, Provenances.Observe, PayloadMatches, EffectOf,
      Encodable, Durable;
  }

  /** An admitted request whose work is done is taken, also in replay. */
  lemma ExistingTakes(c: Config, s: State, now: int, r: Request, io: Io, replaying: bool)
    requires PayloadMatches(r.kind, r.payload) && r.queue in s.queues && c.hasJournal && io.Good? && Encodable(r)
    requires Admitted(c, s, s.queues[r.queue], r, replaying) && Perform(c, EnvAt(s, s.queues[r.queue], now), s.queues[r.queue], r).Done?
    ensures ApplyExisting(c, s, now, r, io, replaying).verdict.Took?
  {
    hide Perform, Remembered, Allowed, CheckCurrent, Memos.Find, Provenances.Classify, Provenances.Observe, PayloadMatches, EffectOf,
      Encodable, Durable;
  }

  // ---- a live state and its mirror ------------------------------------------

  predicate SameTopology(r: Resource, p: Resource) {
    p.classes == r.classes && p.pools == r.pools && p.authority.grants == r.authority.grants
  }

  /** Every resource is there again, with the same classes, pools and grants. */
  predicate Agrees(resources: map<Id, Resource>, others: map<Id, Resource>) {
    forall i :: i in resources ==> i in others && SameTopology(resources[i], others[i])
  }

  predicate MemoWithin(memo: seq<Memo>, attempts: set<Attempt>) {
    forall k :: 0 <= k < |memo| ==> memo[k].attempt in attempts
  }

  predicate SameQueues(queues: map<Id, Queue>, others: map<Id, Queue>) {
    others.Keys == queues.Keys && forall i :: i in queues ==> SameDurable(queues[i], others[i])
  }

  /** What definitional work reads agrees: the definition up to the time of
      declaration, the fence, and the lifecycle, except that replay, which cannot
      quiesce, may have left a queue draining that was quiesced, or quiesced and
      then retired, live. */
  predicate SameShape(q: Queue, p: Queue) {
    && p.def == q.def.(declaredAt := p.def.declaredAt)
    && p.flags.fenced == q.flags.fenced && p.fence.fenced == q.fence.fenced
    && (p.lifecycle == q.lifecycle || (p.lifecycle.Draining? && (q.lifecycle.Quiesced? || q.lifecycle.Retired?)))
  }

  /** The second queue mirrors the first: in everything durable, or in shape. */
  predicate Mirror(exact: bool, q: Queue, p: Queue) {
    if exact then SameDurable(q, p) else SameShape(q, p)
  }

  predicate MirrorQueues(exact: bool, queues: map<Id, Queue>, others: map<Id, Queue>) {
    others.Keys == queues.Keys && forall i :: i in queues ==> Mirror(exact, queues[i], others[i])
  }

  /** The second state has the same queues, names and numbering. */
  predicate Mirrors(exact: bool, s: State, t: State) {
    && MirrorQueues(exact, s.queues, t.queues)
    && t.names == s.names && t.ids.queue == s.ids.queue && (exact ==> t.ids.fence == s.ids.fence)
  }

  /** Changes within what is durable keep a mirror. */
  lemma MirrorChain(exact: bool, q: Queue, q': Queue, p: Queue, p': Queue)
    requires Mirror(exact, q, p) && SameDurable(q, q') && SameDurable(p, p')
    ensures Mirror(exact, q', p')
  {
  }

  lemma SameSelf(q: Queue)
    ensures SameDurable(q, q)
  {
  }

  lemma MirrorKeys(exact: bool, queues: map<Id, Queue>, others: map<Id, Queue>)
    requires MirrorQueues(exact, queues, others)
    ensures Names.SameKeys(queues, others) && Names.PartOf(others, queues)
  {
  }

  lemma MirrorExact(queues: map<Id, Queue>, others: map<Id, Queue>)
    ensures MirrorQueues(true, queues, others) <==> SameQueues(queues, others)
  {
    hide SameDurable;
  }

  /** A mirror of a mirror, when one of the two is exact. */
  lemma MirrorsChain(exact: bool, s: State, g: State, t: State)
    requires Mirrors(exact, s, g) && Mirrors(true, g, t)
    ensures Mirrors(exact, s, t)
  {
    hide SameDurable, SameShape;
    forall i | i in s.queues ensures Mirror(exact, s.queues[i], t.queues[i]) {
      SameSelf(s.queues[i]);
      MirrorChain(exact, s.queues[i], s.queues[i], g.queues[i], t.queues[i]);
    }
  }

  lemma MirrorsBack(s: State, t: State)
    requires Mirrors(true, s, t)
    ensures Mirrors(true, t, s)
  {
    hide SameDurable;
    forall i | i in t.queues ensures SameDurable(t.queues[i], s.queues[i]) {
      SameDurableBack(s.queues[i], t.queues[i]);
    }
  }

  lemma SameDurableBack(a: Queue, b: Queue)
    requires SameDurable(a, b)
    ensures SameDurable(b, a)
  {
  }

  /** A live change within what is durable keeps the mirror. */
  lemma MirrorsOn(exact: bool, s: State, next: State, t: State)
    requires Mirrors(exact, s, t) && Mirrors(true, s, next)
    ensures Mirrors(exact, next, t)
  {
    hide SameDurable, SameShape;
    forall i | i in s.queues ensures Mirror(exact, next.queues[i], t.queues[i]) {
      SameSelf(t.queues[i]);
      MirrorChain(exact, s.queues[i], next.queues[i], t.queues[i], t.queues[i]);
    }
  }

  lemma PerformMemo(c: Config, env: Env, q: Queue, r: Request)
    requires PayloadMatches(r.kind, r.payload)
    ensures var w := Perform(c, env, q, r); w.Done? ==> w.queue.memo == q.memo
  {
    hide CheckBinding, Drains.Assess, Backends.Verify, Backends.FindLive, QueuePolicy, SameLife, NoteZero, CheckTransition,
      Occupancies.Invalidate, Bounded;
  }

  // ---- work in shape --------------------------------------------------------

  /** What replayed work leaves mirrors what live work left, also where it is
      refused; a mirror in everything durable is never refused. */
  predicate Reflects(exact: bool, w: Result, w': Result, p: Queue) {
    w.Done? ==>
      if w'.Done? then Mirror(exact, w.queue, w'.queue) && (exact ==> w'.tokens == w.tokens) else !exact && Mirror(exact, w.queue, p)
  }

  lemma MoveShape(c: Config, env: Env, env': Env, q: Queue, p: Queue, r: Request)
    requires SameShape(q, p) && env'.resource.classes == env.resource.classes && !q.flags.fenced
    ensures Reflects(false, Validate(env, q), Validate(env', p), p) && Reflects(false, Activate(env, q), Activate(env', p), p)
    ensures Reflects(false, BeginDrain(env, q, r), BeginDrain(env', p, r), p) && Reflects(false, EndDrain(q), EndDrain(p), p)
    ensures Reflects(false, Retire(q), Retire(p), p)
  {
    hide CheckBinding;
  }

  lemma QuiesceShape(c: Config, env: Env, env': Env, q: Queue, p: Queue)
    requires SameShape(q, p)
    ensures Reflects(false, Quiesce(c, env, q), Quiesce(c, env', p), p)
  {
    hide Drains.Assess, Backends.Verify, Backends.FindLive, QueuePolicy;
  }

  lemma RedefineShape(q: Queue, p: Queue, def: Definition, def': Definition)
    requires SameShape(q, p) && def' == def.(declaredAt := def'.declaredAt)
    ensures Reflects(false, Redefine(q, def), Redefine(p, def'), p)
  {
    hide Occupancies.Invalidate;
  }

  lemma DefinitionShape(env: Env, env': Env, q: Queue, p: Queue, binding: ClassBinding, limits: Thresholds, owner: Id)
    requires SameShape(q, p) && env'.resource.classes == env.resource.classes
    ensures Reflects(false, Rebind(env, q, binding), Rebind(env', p, binding), p)
    ensures Reflects(false, Work.SetLimits(q, limits), Work.SetLimits(p, limits), p) && Reflects(false, Transfer(q, owner), Transfer(p, owner), p)
  {
    hide CheckBinding, Redefine;
    RedefineShape(q, p, q.def.(cls := binding), p.def.(cls := binding));
    RedefineShape(q, p, q.def.(thresholds := limits), p.def.(thresholds := limits));
    RedefineShape(q, p, q.def.(owner := owner), p.def.(owner := owner));
  }

  lemma FenceShape(env: Env, env': Env, q: Queue, p: Queue, r: Request, reason: Text)
    requires SameShape(q, p)
    ensures Reflects(false, Raise(env, q, r, reason), Raise(env', p, r, reason), p) && Reflects(false, Lower(q), Lower(p), p)
    ensures Reflects(false, Work.Fail(q, reason), Work.Fail(p, reason), p)
  {
    hide Bounded;
  }

  /** Durable work that was done live is done in replay with a result of the same
      shape, or refused where the shapes already say so. */
  lemma PerformShape(c: Config, env: Env, env': Env, q: Queue, p: Queue, r: Request)
    requires PayloadMatches(r.kind, r.payload) && Durable(r.kind) && Soundness.Permitted(q, r)
    requires SameShape(q, p) && env'.resource.classes == env.resource.classes
    ensures Reflects(false, Perform(c, env, q, r), Perform(c, env', p, r), p)
  {
    hide Validate, Activate, Rebind, Work.SetLimits, Transfer, BeginDrain, EndDrain, Raise, Lower, Work.Fail, Retire, SameShape, SameDurable, Ingest,
      Submit, Acknowledge, Quiesce;
    if r.payload.NoPayload? {
      assert !q.flags.fenced;
      MoveShape(c, env, env', q, p, r);
      QuiesceShape(c, env, env', q, p);
    } else if r.payload.RebindPayload? {
      DefinitionShape(env, env', q, p, r.payload.binding, q.def.thresholds, 0);
    } else if r.payload.ThresholdsPayload? {
      DefinitionShape(env, env', q, p, q.def.cls, r.payload.limits, 0);
    } else if r.payload.OwnershipPayload? {
      DefinitionShape(env, env', q, p, q.def.cls, q.def.thresholds, r.payload.owner);
    } else if r.payload.FencePayload? {
      FenceShape(env, env', q, p, r, r.payload.reason);
    }
  }

  lemma PerformReflects(c: Config, exact: bool, env: Env, env': Env, q: Queue, p: Queue, r: Request)
    requires PayloadMatches(r.kind, r.payload) && Durable(r.kind) && Soundness.Permitted(q, r)
    requires Mirror(exact, q, p) && env'.resource.classes == env.resource.classes
    requires exact ==> env'.tokens == env.tokens && (r.kind.QuiesceQueue? ==> q.lifecycle.Quiesced?)
    ensures Reflects(exact, Perform(c, env, q, r), Perform(c, env', p, r), p)
  {
    hide Perform, PayloadMatches, Durable, SameDurable, SameShape, Soundness.Permitted;
    if exact {
      PerformTwin(c, env, env', q, p, r);
    } else {
      PerformShape(c, env, env', q, p, r);
    }
  }

  // ---- replaying work on a queue --------------------------------------------

  lemma AdmittedTwin(c: Config, exact: bool, s: State, t: State, q: Queue, p: Queue, r: Request)
    requires Admitted(c, s, q, r, false) && Mirror(exact, q, p) && Memos.Find(p.memo, r.attempt).None?
    requires Agrees(s.resources, t.resources) && EpochsAgree(t)
    ensures Admitted(c, t, p, r, true)
  {
    hide Memos.Find, Provenances.Classify, Holds, CapabilitiesOf;
  }

  lemma RememberedDurable(c: Config, q: Queue, r: Request, outcome: Code, durable: bool)
    ensures SameDurable(q, Remembered(c, q, r, outcome, durable))
  {
    hide Kept, Remembered, SameDurable;
    RememberedKept(c, q, r, outcome, durable);
    KeptDurable(c, r, q, Remembered(c, q, r, outcome, durable));
  }

  lemma TookChecked(c: Config, s: State, r: Request, clock: int, io: Io, replaying: bool)
    requires Apply(c, s, r, clock, io, replaying).verdict.Took?
    ensures !s.shuttingDown && Check(r).Ok? && PayloadMatches(r.kind, r.payload)
  {
    hide ApplyDeclare, ApplyExisting, Check, Score, AfterTurn;
  }

  lemma ApplyIsTurn(c: Config, s: State, r: Request, clock: int, io: Io, replaying: bool)
    requires !s.shuttingDown && Check(r).Ok? && !r.kind.DeclareQueue? && r.queue in s.queues && PayloadMatches(r.kind, r.payload)
    ensures Apply(c, s, r, clock, io, replaying) ==
      AfterTurn(s, r, Later(s.watermark, clock), ApplyExisting(c, s, Later(s.watermark, clock), r, io, replaying))
  {
    hide ApplyDeclare, ApplyExisting, Check, Score, AfterTurn;
  }

  /** A reason that fits its bound; names are bounded by validation. */
  predicate Recordable(r: Request) {
    r.payload.FencePayload? ==> |r.payload.reason| <= MAX_REASON
  }

  lemma RecordableCodes(r: Request)
    requires Recordable(r) && Check(r).Ok?
    ensures Encodable(r) && (Durable(r.kind) ==> Decodable(r))
  {
    hide Check;
    Laws.ValidationIsExact(r);
  }

  /** The fence tokens a mutation of queue i draws. */
  function Drawn(c: Config, s: State, r: Request, now: int): nat
    requires PayloadMatches(r.kind, r.payload) && r.queue in s.queues
  {
    var q := s.queues[r.queue];
    if q.def.resource in s.resources && Perform(c, EnvAt(s, q, now), q, r).Done? then Perform(c, EnvAt(s, q, now), q, r).tokens else 0
  }

  lemma ApplyTokens(c: Config, s: State, r: Request, clock: int, io: Io, replaying: bool)
    requires c.hasJournal && io.Good? && Recordable(r)
    ensures var reply := Apply(c, s, r, clock, io, replaying);
      if reply.verdict.Took? && PayloadMatches(r.kind, r.payload) && !r.kind.DeclareQueue? && r.queue in s.queues then
        reply.state.ids.fence == s.ids.fence + Drawn(c, s, r, reply.state.watermark)
      else reply.state.ids.fence == s.ids.fence
  {
    hide ApplyDeclare, ApplyExisting, Check, Score, Perform, PayloadMatches, Recordable;
    if !s.shuttingDown && Check(r).Ok? {
      assert PayloadMatches(r.kind, r.payload);
      if r.kind.DeclareQueue? {
        DeclareTokens(c, s, Later(s.watermark, clock), r, io, replaying) by {
          DeclarePayloads(r);
        }
      } else if r.queue in s.queues {
        RecordableCodes(r);
        ExistingTokens(c, s, Later(s.watermark, clock), r, io, replaying);
      }
    }
  }

  lemma DeclarePayloads(r: Request)
    requires r.kind.DeclareQueue? && PayloadMatches(r.kind, r.payload)
    ensures r.payload.DeclarePayload?
  {
  }

  lemma DeclareTokens(c: Config, s: State, now: int, r: Request, io: Io, replaying: bool)
    requires r.payload.DeclarePayload?
    ensures ApplyDeclare(c, s, now, r, io, replaying).state.ids.fence == s.ids.fence
  {
    hide CheckDeclaration, Commit, Score, Remembered, NewQueue, Provenances.Observe;
    if CheckDeclaration(c, s, r, replaying).Took? {
      TakenHasResource(c, s, r, replaying);
    }
  }

  /** A request to quiesce names a queue that is quiesced already. */
  predicate QuiescesAgain(s: State, r: Request) {
    r.kind.QuiesceQueue? ==> r.queue in s.queues && s.queues[r.queue].lifecycle.Quiesced?
  }

  lemma HandledWorked(c: Config, s: State, r: Request, reply: Reply)
    requires QueuesAfter(c, s, r, false, reply) && reply.verdict.Took? && !r.kind.DeclareQueue?
    ensures r.queue in s.queues && r.queue in reply.state.queues
    ensures Worked(c, s, reply.state.watermark, s.queues[r.queue], r, false, reply.state.queues[r.queue])
  {
    hide Worked, Installed;
    assert Handled(c, s, r, false, reply, r.queue);
  }

  lemma TurnTook(t: State, r: Request, now: int, turn: Turn)
    ensures var reply := AfterTurn(t, r, now, turn);
      && reply.verdict == turn.verdict && reply.state.watermark == now && reply.state.ids.fence == turn.fence
      && r.queue in reply.state.queues && reply.state.queues[r.queue] == turn.queue
  {
    hide Score;
  }

  /** What the pipeline makes of a queue on which a request is admitted: the work
      done, or the queue as it was. */
  lemma AdmittedTurn(c: Config, t: State, r: Request, clock: int, io: Io, replaying: bool)
    requires c.hasJournal && io.Good? && Recordable(r) && Check(r).Ok? && PayloadMatches(r.kind, r.payload) && !r.kind.DeclareQueue?
    requires !t.shuttingDown && r.queue in t.queues && Admitted(c, t, t.queues[r.queue], r, replaying)
    ensures var p, reply := t.queues[r.queue], Apply(c, t, r, clock, io, replaying);
      && p.def.resource in t.resources && r.queue in reply.state.queues
      && var w := Perform(c, EnvAt(t, p, reply.state.watermark), p, r);
        && (reply.verdict.Took? <==> w.Done?)
        && SameDurable(if w.Done? then w.queue else p, reply.state.queues[r.queue])
        && reply.state.ids.fence == t.ids.fence + if w.Done? then w.tokens else 0
  {
    hide Apply, ApplyExisting, AfterTurn, SameDurable, Perform, Admitted, Durable, PayloadMatches, Check, Recordable, Encodable, Remembered;
    var p, now, reply := t.queues[r.queue], Later(t.watermark, clock), Apply(c, t, r, clock, io, replaying);
    Soundness.AdmittedResource(c, t, p, r, replaying);
    RecordableCodes(r);
    ApplyIsTurn(c, t, r, clock, io, replaying);
    var turn := ApplyExisting(c, t, now, r, io, replaying);
    ExistingEvolves(c, t, now, r, io, replaying);
    TurnTook(t, r, now, turn);
    ApplyTokens(c, t, r, clock, io, replaying);
    var w := Perform(c, EnvAt(t, p, now), p, r);
    if w.Done? {
      ExistingTakes(c, t, now, r, io, replaying);
      RememberedDurable(c, w.queue, r, Ok, Durable(r.kind) && c.hasJournal);
    } else {
      NotDoneNotTaken(c, t, now, p, r, turn, replaying);
      KeptDurable(c, r, p, turn.queue);
    }
  }

  lemma NotDoneNotTaken(c: Config, t: State, now: int, p: Queue, r: Request, turn: Turn, replaying: bool)
    requires r.queue in t.queues && p == t.queues[r.queue] && p.def.resource in t.resources && PayloadMatches(r.kind, r.payload)
    requires Evolved(c, t, now, r, replaying, turn) && !Perform(c, EnvAt(t, p, now), p, r).Done?
    ensures !turn.verdict.Took? && Kept(c, r, p, turn.queue)
  {
    hide Perform, Admitted, Remembered, PayloadMatches, Durable, Kept;
  }

  /** The same for a live request that was taken. */
  lemma TakenTurn(c: Config, s: State, r: Request, clock: int)
    requires c.hasJournal && Counted(s) && Recordable(r) && !r.kind.DeclareQueue? && Apply(c, s, r, clock, Good, false).verdict.Took?
    ensures Check(r).Ok? && PayloadMatches(r.kind, r.payload) && r.queue in s.queues && Admitted(c, s, s.queues[r.queue], r, false)
    ensures var q, reply := s.queues[r.queue], Apply(c, s, r, clock, Good, false);
      && q.def.resource in s.resources && r.queue in reply.state.queues
      && var w := Perform(c, EnvAt(s, q, reply.state.watermark), q, r);
        && w.Done? && SameDurable(w.queue, reply.state.queues[r.queue]) && reply.state.ids.fence == s.ids.fence + w.tokens
  {
    hide Apply, SameDurable, Perform, Durable, PayloadMatches, Check, Recordable, Remembered, Admitted, Counted, QueuesAfter;
    var reply := Apply(c, s, r, clock, Good, false);
    TookChecked(c, s, r, clock, Good, false);
    CountedNumbered(s);
    ApplyQueues(c, s, r, clock, Good, false);
    HandledWorked(c, s, r, reply);
    var q := s.queues[r.queue];
    Soundness.AdmittedResource(c, s, q, r, false);
    ApplyTokens(c, s, r, clock, Good, false);
    RememberedDurable(c, Perform(c, EnvAt(s, q, reply.state.watermark), q, r).queue, r, Ok, Durable(r.kind) && c.hasJournal);
  }

  // ---- mirrors stay mirrors -------------------------------------------------

  lemma MarkerDrawsNothing(c: Config, t: State, r: Request, now: int)
    requires !Durable(r.kind)
    ensures PayloadMatches(r.kind, r.payload) && r.queue in t.queues ==> Drawn(c, t, r, now) == 0
  {
    hide Perform, PayloadMatches;
    if PayloadMatches(r.kind, r.payload) && r.queue in t.queues && t.queues[r.queue].def.resource in t.resources {
      PerformTokens(c, EnvAt(t, t.queues[r.queue], now), t.queues[r.queue], r);
    }
  }

  lemma MarkerQueues(c: Config, t: State, r: Request, replaying: bool, reply: Reply)
    requires QueuesAfter(c, t, r, replaying, reply) && !(reply.verdict.Took? && Durable(r.kind))
    ensures MirrorQueues(true, t.queues, reply.state.queues)
  {
    hide Handled, SameDurable, HasTarget, CheckDeclaration, Check, Remembered;
    forall i | i in t.queues ensures i in reply.state.queues && SameDurable(t.queues[i], reply.state.queues[i]) {
      HandledSideways(c, t, r, replaying, reply, i);
    }
    assert forall i | i in reply.state.queues :: i in t.queues;
  }

  /** A replayed marker changes nothing durable. */
  lemma MarkerUnmoved(c: Config, t: State, r: Request, m: Moment)
    requires Counted(t) && !Durable(r.kind) && c.hasJournal && m.io.Good? && Recordable(r)
    ensures Mirrors(true, t, Apply(c, t, r, m.clock, m.io, true).state)
  {
    hide Apply, SameDurable, Counted, QueuesAfter, Recordable, Drawn;
    var reply := Apply(c, t, r, m.clock, m.io, true);
    CountedNumbered(t);
    ApplyQueues(c, t, r, m.clock, m.io, true);
    Names.ApplyNames(c, t, r, m.clock, m.io, true);
    ApplyTokens(c, t, r, m.clock, m.io, true);
    MarkerDrawsNothing(c, t, r, reply.state.watermark);
    MarkerQueues(c, t, r, true, reply);
  }

  /** Work taken live and replayed leaves mirrors. */
  lemma WorkMirrors(c: Config, exact: bool, s: State, t: State, r: Request, clock: int, m: Moment)
    requires c.hasJournal && m.io.Good? && Recordable(r) && Counted(s) && Counted(t) && EpochsAgree(t) && !t.shuttingDown
    requires Apply(c, s, r, clock, Good, false).verdict.Took? && Durable(r.kind) && !r.kind.DeclareQueue? && (exact ==> QuiescesAgain(s, r))
    requires Mirrors(exact, s, t) && Agrees(s.resources, t.resources)
    requires r.queue in t.queues ==> Memos.Find(t.queues[r.queue].memo, r.attempt).None?
    ensures Mirrors(exact, Apply(c, s, r, clock, Good, false).state, Apply(c, t, r, m.clock, m.io, true).state)
    ensures Check(r).Ok? && PayloadMatches(r.kind, r.payload) && r.queue in t.queues && Admitted(c, t, t.queues[r.queue], r, true)
  {
    hide Apply, Mirror, SameDurable, Counted, QueuesAfter, Recordable, EpochsAgree, Agrees, Durable, Perform, Admitted, Check, PayloadMatches,
      Memos.Find, Soundness.Permitted;
    var reply, reply' := Apply(c, s, r, clock, Good, false), Apply(c, t, r, m.clock, m.io, true);
    TakenTurn(c, s, r, clock);
    var q, p := s.queues[r.queue], t.queues[r.queue];
    AdmittedTwin(c, exact, s, t, q, p, r);
    AdmittedTurn(c, t, r, m.clock, m.io, true);
    Soundness.AdmittedPermitted(c, s, q, r, false);
    MirrorResource(exact, q, p);
    AgreedClasses(s, t, q.def.resource);
    PerformReflects(c, exact, EnvAt(s, q, reply.state.watermark), EnvAt(t, p, reply'.state.watermark), q, p, r);
    var w, w' := Perform(c, EnvAt(s, q, reply.state.watermark), q, r), Perform(c, EnvAt(t, p, reply'.state.watermark), p, r);
    MirrorChain(exact, w.queue, reply.state.queues[r.queue], if w'.Done? then w'.queue else p, reply'.state.queues[r.queue]);
    CountedNumbered(s);
    CountedNumbered(t);
    ApplyQueues(c, s, r, clock, Good, false);
    ApplyQueues(c, t, r, m.clock, m.io, true);
    Names.ApplyNames(c, s, r, clock, Good, false);
    Names.ApplyNames(c, t, r, m.clock, m.io, true);
    WorkQueues(c, exact, s, false, t, r, reply, reply');
  }

  lemma MirrorResource(exact: bool, q: Queue, p: Queue)
    requires Mirror(exact, q, p)
    ensures p.def.resource == q.def.resource && p.def.name == q.def.name && p.def.generation == q.def.generation
  {
  }

  lemma AgreedClasses(s: State, t: State, i: Id)
    requires Agrees(s.resources, t.resources) && i in s.resources
    ensures i in t.resources && t.resources[i].classes == s.resources[i].classes
  {
  }

  lemma WorkQueues(c: Config, exact: bool, s: State, replaying: bool, t: State, r: Request, reply: Reply, reply': Reply)
    requires QueuesAfter(c, s, r, replaying, reply) && QueuesAfter(c, t, r, true, reply') && MirrorQueues(exact, s.queues, t.queues)
    requires !r.kind.DeclareQueue? && r.queue in reply.state.queues && r.queue in reply'.state.queues
    requires Mirror(exact, reply.state.queues[r.queue], reply'.state.queues[r.queue])
    ensures MirrorQueues(exact, reply.state.queues, reply'.state.queues)
  {
    hide Handled, Mirror, SameDurable, HasTarget, CheckDeclaration, Check, Remembered;
    forall i | i in s.queues
      ensures i in reply.state.queues && i in reply'.state.queues && Mirror(exact, reply.state.queues[i], reply'.state.queues[i])
    {
      if i != r.queue {
        HandledSideways(c, s, r, replaying, reply, i);
        HandledSideways(c, t, r, true, reply', i);
        MirrorChain(exact, s.queues[i], reply.state.queues[i], t.queues[i], reply'.state.queues[i]);
      } else {
        HandledPresent(c, s, r, replaying, reply, i);
        HandledPresent(c, t, r, true, reply', i);
      }
    }
    assert forall i :: i in reply.state.queues ==> i in s.queues;
    assert forall i :: i in reply'.state.queues ==> i in t.queues;
  }

  lemma HandledPresent(c: Config, s: State, r: Request, replaying: bool, reply: Reply, i: Id)
    requires i in s.queues && Handled(c, s, r, replaying, reply, i)
    ensures i in reply.state.queues
  {
    hide Worked, Kept;
  }

  // ---- two replays of the same request --------------------------------------

  /** Without live evidence a replayed quiesce changes nothing durable. */
  lemma QuiesceInert(c: Config, env: Env, q: Queue, r: Request)
    requires r.kind.QuiesceQueue? && PayloadMatches(r.kind, r.payload) && !Quiescence.Claims(q.drain) && Soundness.Coherent(q)
    ensures var w := Perform(c, env, q, r); w.Done? ==> SameDurable(q, w.queue) && w.tokens == 0
  {
    hide Drains.Assess, Backends.Verify, Backends.FindLive, QueuePolicy;
    Quiescence.PerformQuiesces(c, env, q, r);
  }

  /** On records that agree in everything durable a request admitted on both is
      worked alike. */
  predicate WorkedAlike(w: Result, p: Queue, w': Result, p': Queue) {
    && SameDurable(if w.Done? then w.queue else p, if w'.Done? then w'.queue else p')
    && (if w.Done? then w.tokens else 0) == (if w'.Done? then w'.tokens else 0)
  }

  lemma PerformAlike(c: Config, env: Env, env': Env, p: Queue, p': Queue, r: Request)
    requires PayloadMatches(r.kind, r.payload) && Durable(r.kind) && SameDurable(p, p')
    requires env'.resource.classes == env.resource.classes && env'.tokens == env.tokens
    requires !Quiescence.Claims(p.drain) && !Quiescence.Claims(p'.drain) && Soundness.Coherent(p) && Soundness.Coherent(p')
    ensures WorkedAlike(Perform(c, env, p, r), p, Perform(c, env', p', r), p')
  {
    hide Perform, PayloadMatches, Durable, SameDurable, Quiescence.Claims, Soundness.Coherent;
    SameDurableBack(p, p');
    if r.kind.QuiesceQueue? {
      QuiesceInert(c, env, p, r);
      QuiesceInert(c, env', p', r);
      var w, w' := Perform(c, env, p, r), Perform(c, env', p', r);
      SameSelf(p);
      SameSelf(p');
      FourDurable(p, if w.Done? then w.queue else p, p', if w'.Done? then w'.queue else p');
    } else {
      PerformTwin(c, env, env', p, p', r);
      PerformTwin(c, env', env, p', p, r);
    }
  }

  lemma FourDurable(q: Queue, q': Queue, p: Queue, p': Queue)
    requires SameDurable(q, p) && SameDurable(q, q') && SameDurable(p, p')
    ensures SameDurable(q', p')
  {
  }

  lemma WorkAlike(c: Config, t: State, t': State, r: Request, m: Moment, m': Moment)
    requires c.hasJournal && m.io.Good? && m'.io.Good? && Recordable(r) && Counted(t) && Counted(t') && !t.shuttingDown && !t'.shuttingDown
    requires Check(r).Ok? && PayloadMatches(r.kind, r.payload) && Durable(r.kind) && !r.kind.DeclareQueue? && Mirrors(true, t, t')
    requires r.queue in t.queues && r.queue in t'.queues
    requires Admitted(c, t, t.queues[r.queue], r, true) && Admitted(c, t', t'.queues[r.queue], r, true)
    requires forall i :: i in t.resources && i in t'.resources && i == t.queues[r.queue].def.resource ==>
      t'.resources[i].classes == t.resources[i].classes
    requires !Quiescence.Claims(t.queues[r.queue].drain) && !Quiescence.Claims(t'.queues[r.queue].drain)
    requires Soundness.Coherent(t.queues[r.queue]) && Soundness.Coherent(t'.queues[r.queue])
    ensures Mirrors(true, Apply(c, t, r, m.clock, m.io, true).state, Apply(c, t', r, m'.clock, m'.io, true).state)
  {
    hide Apply, SameDurable, Counted, QueuesAfter, Recordable, Durable, Perform, Admitted, Check, PayloadMatches, Quiescence.Claims,
      Soundness.Coherent, WorkedAlike;
    var reply, reply' := Apply(c, t, r, m.clock, m.io, true), Apply(c, t', r, m'.clock, m'.io, true);
    var p, p' := t.queues[r.queue], t'.queues[r.queue];
    AdmittedTurn(c, t, r, m.clock, m.io, true);
    AdmittedTurn(c, t', r, m'.clock, m'.io, true);
    MirrorResource(true, p, p');
    var env, env' := EnvAt(t, p, reply.state.watermark), EnvAt(t', p', reply'.state.watermark);
    PerformAlike(c, env, env', p, p', r);
    AlikeOutcome(Perform(c, env, p, r), p, Perform(c, env', p', r), p', reply.state.queues[r.queue], reply'.state.queues[r.queue]);
    CountedNumbered(t);
    CountedNumbered(t');
    ApplyQueues(c, t, r, m.clock, m.io, true);
    ApplyQueues(c, t', r, m'.clock, m'.io, true);
    Names.ApplyNames(c, t, r, m.clock, m.io, true);
    Names.ApplyNames(c, t', r, m'.clock, m'.io, true);
    WorkQueues(c, true, t, true, t', r, reply, reply');
  }

  lemma AlikeOutcome(w: Result, p: Queue, w': Result, p': Queue, next: Queue, next': Queue)
    requires WorkedAlike(w, p, w', p') && SameDurable(if w.Done? then w.queue else p, next) && SameDurable(if w'.Done? then w'.queue else p', next')
    ensures SameDurable(next, next') && (if w.Done? then w.tokens else 0) == (if w'.Done? then w'.tokens else 0)
  {
    hide SameDurable;
    FourDurable(if w.Done? then w.queue else p, next, if w'.Done? then w'.queue else p', next');
  }

  // ---- replaying a declaration ----------------------------------------------

  lemma SameQueuesOf(queues: map<Id, Queue>, others: map<Id, Queue>, r: Id)
    requires Names.SameKeys(queues, others)
    ensures QueuesOf(others, r) == QueuesOf(queues, r) && |others| == |queues|
  {
    assert |others.Keys| == |others| && |queues.Keys| == |queues|;
  }

  /** A declaration passes in replay where it passed live: names, numbers of
      queues and topology are all it asks for. */
  lemma DeclarationReplays(c: Config, s: State, t: State, r: Request)
    requires r.payload.DeclarePayload? && CheckDeclaration(c, s, r, false).Took?
    requires Names.SameKeys(s.queues, t.queues) && t.names == s.names && Agrees(s.resources, t.resources) && EpochsAgree(t)
    ensures CheckDeclaration(c, t, r, true).Took?
  {
    hide QueuesOf, FindClass, FindPool, Provenances.Classify, Holds, CapabilitiesOf, Names.SameKeys;
    SameQueuesOf(s.queues, t.queues, r.payload.resource);
  }

  lemma DeclareTakes(c: Config, t: State, r: Request, clock: int, io: Io)
    requires c.hasJournal && io.Good? && Encodable(r) && !t.shuttingDown && Check(r).Ok? && r.kind.DeclareQueue? && r.payload.DeclarePayload?
    requires CheckDeclaration(c, t, r, true).Took?
    ensures Apply(c, t, r, clock, io, true).verdict.Took?
  {
    hide Check, CheckDeclaration, Install, Score, ApplyExisting, Encodable;
  }

  lemma NewMirror(c: Config, exact: bool, s: State, replaying: bool, t: State, r: Request, reply: Reply, reply': Reply, i: Id)
    requires Installed(c, s, r, replaying, reply, i) && Installed(c, t, r, true, reply', i)
    ensures Mirror(exact, reply.state.queues[i], reply'.state.queues[i])
  {
    hide CheckDeclaration, Check, Remembered;
    var q, p := NewQueue(r, i, reply.state.watermark), NewQueue(r, i, reply'.state.watermark);
    RememberedDurable(c, q, r, Ok, c.hasJournal);
    RememberedDurable(c, p, r, Ok, c.hasJournal);
    MirrorChain(exact, q, reply.state.queues[i], p, reply'.state.queues[i]);
  }

  lemma DeclareQueuesMirror(c: Config, exact: bool, s: State, replaying: bool, t: State, r: Request, reply: Reply, reply': Reply)
    requires QueuesAfter(c, s, r, replaying, reply) && QueuesAfter(c, t, r, true, reply') && MirrorQueues(exact, s.queues, t.queues)
    requires r.kind.DeclareQueue? && reply.verdict.Took? && reply'.verdict.Took? && s.ids.queue == t.ids.queue
    ensures MirrorQueues(exact, reply.state.queues, reply'.state.queues)
  {
    hide Handled, Mirror, SameDurable, Installed;
    InstalledPresent(c, s, r, replaying, reply, s.ids.queue);
    InstalledPresent(c, t, r, true, reply', s.ids.queue);
    forall i | i in s.queues
      ensures i in reply.state.queues && i in reply'.state.queues && Mirror(exact, reply.state.queues[i], reply'.state.queues[i])
    {
      HandledSideways(c, s, r, replaying, reply, i);
      HandledSideways(c, t, r, true, reply', i);
      MirrorChain(exact, s.queues[i], reply.state.queues[i], t.queues[i], reply'.state.queues[i]);
    }
    DeclaredKeys(c, s, replaying, r, reply);
    DeclaredKeys(c, t, true, r, reply');
    NewMirror(c, exact, s, replaying, t, r, reply, reply', s.ids.queue);
  }

  lemma DeclaredKeys(c: Config, s: State, replaying: bool, r: Request, reply: Reply)
    requires QueuesAfter(c, s, r, replaying, reply)
    ensures forall i :: i in reply.state.queues ==> i in s.queues || i == s.ids.queue
  {
    hide Handled, Installed, HasTarget;
    forall i | i in reply.state.queues ensures i in s.queues || i == s.ids.queue {
      if i !in s.queues {
        InstalledPresent(c, s, r, replaying, reply, i);
      }
    }
  }

  lemma InstalledPresent(c: Config, s: State, r: Request, replaying: bool, reply: Reply, i: Id)
    requires Installed(c, s, r, replaying, reply, i)
    ensures i == s.ids.queue && i in reply.state.queues && r.payload.DeclarePayload? && CheckDeclaration(c, s, r, replaying).Took?
  {
    hide CheckDeclaration, Check, Remembered;
  }

  /** A declaration taken by both leaves mirrors. */
  lemma DeclaredMirrors(c: Config, exact: bool, s: State, replaying: bool, t: State, r: Request, clock: int, io: Io, m: Moment)
    requires c.hasJournal && io.Good? && m.io.Good? && Counted(s) && Counted(t) && Recordable(r) && r.kind.DeclareQueue? && Mirrors(exact, s, t)
    requires Apply(c, s, r, clock, io, replaying).verdict.Took? && Apply(c, t, r, m.clock, m.io, true).verdict.Took?
    ensures Mirrors(exact, Apply(c, s, r, clock, io, replaying).state, Apply(c, t, r, m.clock, m.io, true).state)
  {
    hide Apply, Mirror, Counted, Handled, Installed, MirrorQueues, KeyOf, Recordable, Drawn;
    var reply, reply' := Apply(c, s, r, clock, io, replaying), Apply(c, t, r, m.clock, m.io, true);
    CountedNumbered(s);
    CountedNumbered(t);
    ApplyQueues(c, s, r, clock, io, replaying);
    ApplyQueues(c, t, r, m.clock, m.io, true);
    Names.ApplyNames(c, s, r, clock, io, replaying);
    Names.ApplyNames(c, t, r, m.clock, m.io, true);
    ApplyTokens(c, s, r, clock, io, replaying);
    ApplyTokens(c, t, r, m.clock, m.io, true);
    DeclareQueuesMirror(c, exact, s, replaying, t, r, reply, reply');
  }

  /** A declaration taken live is taken in replay. */
  lemma DeclareReplays(c: Config, s: State, t: State, r: Request, clock: int, m: Moment)
    requires c.hasJournal && m.io.Good? && Counted(s) && EpochsAgree(t) && !t.shuttingDown
    requires Apply(c, s, r, clock, Good, false).verdict.Took? && r.kind.DeclareQueue?
    requires Names.SameKeys(s.queues, t.queues) && t.names == s.names && Agrees(s.resources, t.resources)
    ensures Apply(c, t, r, m.clock, m.io, true).verdict.Took?
  {
    hide Apply, Counted, EpochsAgree, Agrees, Handled, CheckDeclaration, Installed, Check, Encodable, PayloadMatches, Names.SameKeys;
    var reply := Apply(c, s, r, clock, Good, false);
    TookChecked(c, s, r, clock, Good, false);
    DeclarePayloads(r);
    RecordableCodes(r);
    CountedNumbered(s);
    ApplyQueues(c, s, r, clock, Good, false);
    InstalledPresent(c, s, r, false, reply, s.ids.queue);
    DeclarationReplays(c, s, t, r);
    DeclareTakes(c, t, r, m.clock, m.io);
  }

  // ---- live steps that replay need not know of ------------------------------

  lemma MutateIsApply(c: Config, s: State, e: Event)
    requires e.Mutate?
    ensures Step(c, s, e) == Apply(c, s, e.request, e.clock, e.io, false)
  {
    hide Apply, DeclareResource, GrantCapabilities, DeclareClass, DeclarePool, AddBackend, MarkDead, AdvanceEpoch,
      InvalidateEvidence, Refresh, Explain, Reserve, CommitPlan, AbortPlan, Compact, Shutdown, Recover;
    assert Unfold(c, s, e);
  }

  /** A mutation that commits nothing moves nothing durable. */
  lemma MutateUnmoved(c: Config, s: State, r: Request, clock: int)
    requires c.hasJournal && Counted(s) && Recordable(r)
    requires var reply := Apply(c, s, r, clock, Good, false); !(reply.verdict.Took? && Durable(r.kind))
    ensures Mirrors(true, s, Apply(c, s, r, clock, Good, false).state)
  {
    hide Apply, MirrorQueues, Counted, QueuesAfter, Recordable, Drawn;
    var reply := Apply(c, s, r, clock, Good, false);
    CountedNumbered(s);
    ApplyQueues(c, s, r, clock, Good, false);
    Names.ApplyNames(c, s, r, clock, Good, false);
    ApplyTokens(c, s, r, clock, Good, false);
    MarkerQueues(c, s, r, false, reply);
    if reply.verdict.Took? {
      MarkerDrawsNothing(c, s, r, reply.state.watermark);
    }
  }

  lemma OtherQueues(c: Config, s: State, e: Event, reply: Reply)
    requires QueueSteps(c, s, e, reply) && !e.Mutate?
    ensures MirrorQueues(true, s.queues, reply.state.queues)
  {
    hide Handled, Marked, HasTarget, Installed, SameDurable;
    forall i | i in s.queues ensures i in reply.state.queues && SameDurable(s.queues[i], reply.state.queues[i]) {
      assert QueueStep(c, s, e, reply, i);
      if RequestOf(s, e).Some? {
        HandledSideways(c, s, RequestOf(s, e).value, false, reply, i);
      } else {
        MarkedDurable(c, s, e, reply.state, i);
      }
    }
  }

  lemma CommitTokens(c: Config, s: State, e: Event)
    requires e.CommitApply? && GoodIo(e) && c.hasJournal
    ensures Step(c, s, e).state.ids.fence == s.ids.fence
  {
    hide Apply, DeclareResource, GrantCapabilities, DeclareClass, DeclarePool, AddBackend, MarkDead, AdvanceEpoch, InvalidateEvidence, Refresh,
      Explain, Reserve, AbortPlan, Compact, Shutdown, Recover, Persist, StillHealthy, ApplyExisting, CheckPlan, Score, Succeeded, Perform;
    assert Unfold(c, s, e);
    var r := AckRequest(e.plan, e.applied, s.epoch, e.sender);
    if CheckPlan(s, e.plan, e.sender).Ok? {
      Deltas.CheckedPlan(s, e.plan, e.sender);
      var t := s.(journal := Persist(c, s.journal, CommitMutation(r), e.io).journal);
      ExistingTokens(c, t, Later(s.watermark, e.clock), r, e.io, false);
      var q := t.queues[r.queue];
      if q.def.resource in t.resources {
        PerformTokens(c, EnvAt(t, q, Later(s.watermark, e.clock)), q, r);
      }
    }
  }

  lemma OtherUnmoved(c: Config, s: State, e: Event)
    requires c.hasJournal && Counted(s) && GoodIo(e) && !e.Mutate?
    ensures Mirrors(true, s, Step(c, s, e).state)
  {
    hide Step, QueueSteps, ResourceSteps, CoreStep, JournalStep, Counted, MirrorQueues;
    Deltas.StepDelta(c, s, e);
    OtherQueues(c, s, e, Step(c, s, e));
    Names.OtherNames(c, s, e);
    if e.CommitApply? {
      CommitTokens(c, s, e);
    }
  }
}
