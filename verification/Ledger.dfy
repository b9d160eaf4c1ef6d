/** What the journal reads back as: after one call, after a replay and after a
    recovery. */
module Ledger {
  import opened Status
  import opened Entities
  import opened Lifecycles
  import opened Mutations
  import opened Work
  import opened Machine
  import opened Evolution
  import opened Recovery
  import opened Run
  import opened Steps
  import opened Reach
  import opened GoodRuns
  import opened Twins
  import Counts
  import Snapshots
  import Extremes
  import Soundness
  import Drains
  import Backends
  import Occupancies

  // ---- commit order ---------------------------------------------------------

  /** What the journal reads back as. */
  function Stored(s: State): Loaded {
    Load(s.journal.records, s.journal.headerEpoch)
  }

  /** The commits behind the last snapshot, in file order. */
  function Commits(s: State): seq<Request> {
    Stored(s).order
  }

  lemma LoadAnother(records: seq<Record>, rec: Record, header: nat)
    ensures Load(records + [rec], header) == Absorb(Load(records, header), rec)
  {
    hide Absorb;
    assert (records + [rec])[..|records|] == records;
  }

  lemma LoadCommit(records: seq<Record>, header: nat, r: Request)
    ensures var order := Load(records, header).order;
      var more := if Decodable(r) then order + [r] else order;
      Load(records + [CommitMutation(r)], header).order == more && Load(records + [BeginAttempt(r), CommitMutation(r)], header).order == more
  {
    hide Load, StorableResource, StorableQueue, Restored, Decodable;
    LoadAnother(records, CommitMutation(r), header);
    LoadAnother(records, BeginAttempt(r), header);
    LoadAnother(records + [BeginAttempt(r)], CommitMutation(r), header);
    assert records + [BeginAttempt(r), CommitMutation(r)] == records + [BeginAttempt(r)] + [CommitMutation(r)];
  }

  lemma LoadNeutral(records: seq<Record>, header: nat, rec: Record)
    requires Neutral(rec) || rec.ResourceState?
    ensures Load(records + [rec], header).order == Load(records, header).order
    ensures Load(records + [rec], header).queues == Load(records, header).queues
    ensures rec.ResourceState? || Load(records + [rec], header).resources == Load(records, header).resources
    ensures rec.EpochState? || Load(records + [rec], header).epoch == Load(records, header).epoch
  {
    hide Load, StorableResource, StorableQueue, Restored, Decodable;
    LoadAnother(records, rec, header);
  }

  /** The commit a step adds to the order of replay, if any. */
  predicate OrderStep(s: State, e: Event, reply: Reply) {
    match e
    case Mutate(r, _, _) =>
      Commits(reply.state) == if reply.verdict.Took? && Durable(r.kind) && Decodable(r) then Commits(s) + [r] else Commits(s)
    case CommitApply(plan, applied, sender, _, _) =>
      Commits(reply.state) == Commits(s) || Commits(reply.state) == Commits(s) + [AckRequest(plan, applied, s.epoch, sender)]
    case AbortApply(plan, _, _) =>
      Commits(reply.state) == Commits(s) || Commits(reply.state) == Commits(s) + [AbortMarker(plan)]
    case _ => Commits(reply.state) == Commits(s)
  }

  lemma WritesOrder(c: Config, s: State, e: Event, reply: Reply)
    requires Writes(c, s, e, reply) && GoodIo(e) && reply.state.journal.headerEpoch == s.journal.headerEpoch
    requires !(e.CompactJournal? && reply.verdict.Took?)
    ensures OrderStep(s, e, reply)
  {
    hide Load, Durable, StorableResource;
    var j, k, header := s.journal.records, reply.state.journal.records, s.journal.headerEpoch;
    if e.Mutate? {
      if reply.verdict.Took? && Durable(e.request.kind) {
        LoadCommit(j, header, e.request);
      }
    } else if e.CommitApply? {
      LoadCommit(j, header, AckRequest(e.plan, e.applied, s.epoch, e.sender));
    } else if e.AbortApply? {
      LoadCommit(j, header, AbortMarker(e.plan));
    } else if k != j {
      if Edits(e) {
        var r :| Publishes(s, reply.state, r);
        LoadNeutral(j, header, ResourceState(r));
      } else {
        assert k == j + [k[|j|]];
        LoadNeutral(j, header, k[|j|]);
      }
    }
  }

  // ---- topology in the journal ----------------------------------------------

  /** The journal holds every resource with its current topology, and these
      queues. */
  predicate TopologyStored(s: State, queues: map<Id, Queue>) {
    Agrees(s.resources, Stored(s).resources) && Stored(s).queues == queues
  }

  lemma PublishedStored(s: State, next: State, r: Resource, queues: map<Id, Queue>)
    requires TopologyStored(s, queues) && Publishes(s, next, r) && StorableResource(r)
    requires next.journal.headerEpoch == s.journal.headerEpoch
    ensures TopologyStored(next, queues)
  {
    hide Load, StorableResource, StorableQueue, Restored, Decodable, SameTopology;
    LoadAnother(s.journal.records, ResourceState(r), s.journal.headerEpoch);
    SameTopologySelf(r);
  }

  lemma SameTopologySelf(r: Resource)
    ensures SameTopology(r, r)
  {
  }

  /** The same resources with the same topology. */
  predicate TopologyKept(resources: map<Id, Resource>, next: map<Id, Resource>) {
    next.Keys == resources.Keys && Agrees(next, resources)
  }

  lemma KeptStored(s: State, next: State, queues: map<Id, Queue>)
    requires TopologyStored(s, queues) && TopologyKept(s.resources, next.resources)
    requires Stored(next).resources == Stored(s).resources && Stored(next).queues == Stored(s).queues
    ensures TopologyStored(next, queues)
  {
    hide Stored;
  }

  lemma UneditedKept(s: State, e: Event, next: State)
    requires ResourceSteps(s, e, next) && !e.NewResource? && !e.NewClass? && !e.NewPool? && !e.GrantTo?
    ensures TopologyKept(s.resources, next.resources)
  {
    hide BackendsStep;
    forall i | i in s.resources ensures i in next.resources && SameTopology(next.resources[i], s.resources[i]) {
      assert ResourceStep(s, e, next, i);
    }
  }

  lemma LoadMarker(records: seq<Record>, header: nat, r: Request)
    ensures var l, l' := Load(records, header), Load(records + [CommitMutation(r)], header);
      l'.resources == l.resources && l'.queues == l.queues && l'.epoch == l.epoch
    ensures var l, l' := Load(records, header), Load(records + [BeginAttempt(r), CommitMutation(r)], header);
      l'.resources == l.resources && l'.queues == l.queues && l'.epoch == l.epoch
  {
    hide Load, StorableResource, StorableQueue, Restored, Decodable;
    LoadAnother(records, CommitMutation(r), header);
    LoadAnother(records, BeginAttempt(r), header);
    LoadAnother(records + [BeginAttempt(r)], CommitMutation(r), header);
    assert records + [BeginAttempt(r), CommitMutation(r)] == records + [BeginAttempt(r)] + [CommitMutation(r)];
  }

  lemma WritesLoad(c: Config, s: State, e: Event, reply: Reply)
    requires Writes(c, s, e, reply) && GoodIo(e) && !Edits(e) && reply.state.journal.headerEpoch == s.journal.headerEpoch
    requires !(e.CompactJournal? && reply.verdict.Took?)
    ensures Stored(reply.state).resources == Stored(s).resources && Stored(reply.state).queues == Stored(s).queues
  {
    hide Load, Durable;
    var j, k, header := s.journal.records, reply.state.journal.records, s.journal.headerEpoch;
    if e.Mutate? {
      LoadMarker(j, header, e.request);
    } else if e.CommitApply? {
      LoadMarker(j, header, AckRequest(e.plan, e.applied, s.epoch, e.sender));
    } else if e.AbortApply? {
      LoadMarker(j, header, AbortMarker(e.plan));
    } else if k != j {
      assert k == j + [k[|j|]];
      LoadNeutral(j, header, k[|j|]);
    }
  }

  lemma StoredStep(c: Config, s: State, e: Event, reply: Reply, queues: map<Id, Queue>)
    requires Writes(c, s, e, reply) && GoodIo(e) && ResourceSteps(s, e, reply.state) && TopologyStored(s, queues)
    requires reply.state.journal.headerEpoch == s.journal.headerEpoch && Counts.ResourcesStorable(reply.state)
    requires !(e.CompactJournal? && reply.verdict.Took?)
    ensures TopologyStored(reply.state, queues)
  {
    hide Load, Durable, TopologyStored, TopologyKept, StorableResource, ResourceSteps, Stored;
    if !Edits(e) {
      WritesLoad(c, s, e, reply);
      UneditedKept(s, e, reply.state);
      KeptStored(s, reply.state, queues);
    } else if r :| Publishes(s, reply.state, r) {
      assert r.id in reply.state.resources && reply.state.resources[r.id] == r;
      PublishedStored(s, reply.state, r, queues);
    } else {
      SameStored(s, reply.state, queues);
    }
  }

  lemma SameStored(s: State, next: State, queues: map<Id, Queue>)
    requires TopologyStored(s, queues) && next.resources == s.resources && next.journal.records == s.journal.records
    requires next.journal.headerEpoch == s.journal.headerEpoch
    ensures TopologyStored(next, queues)
  {
    hide Load;
  }

  // ---- fence numbering ------------------------------------------------------

  function Tokens(queues: map<Id, Queue>): set<nat> {
    set i | i in queues :: queues[i].fence.token
  }

  /** The last fence token drawn is the greatest any queue carries. */
  predicate FenceExact(s: State) {
    Extremes.IsGreatest(s.ids.fence, Tokens(s.queues))
  }

  lemma SameTokens(queues: map<Id, Queue>, others: map<Id, Queue>)
    requires SameQueues(queues, others)
    ensures Tokens(others) == Tokens(queues)
  {
    forall n ensures n in Tokens(others) <==> n in Tokens(queues) {
      if n in Tokens(queues) {
        var i :| i in queues && queues[i].fence.token == n;
        assert others[i].fence.token == n;
      }
      if n in Tokens(others) {
        var i :| i in others && others[i].fence.token == n;
        assert queues[i].fence.token == n;
      }
    }
  }

  lemma UnmovedFence(s: State, next: State)
    requires FenceExact(s) && Mirrors(true, s, next)
    ensures FenceExact(next)
  {
    hide SameQueues, MirrorQueues, Tokens;
    MirrorExact(s.queues, next.queues);
    SameTokens(s.queues, next.queues);
  }

  /** A token is kept, or the next one is drawn. */
  lemma PerformToken(c: Config, env: Env, q: Queue, r: Request)
    requires PayloadMatches(r.kind, r.payload)
    ensures var w := Perform(c, env, q, r);
      w.Done? ==> w.queue.fence.token == if w.tokens == 0 then q.fence.token else env.tokens + w.tokens
  {
    hide CheckBinding, Drains.Assess, Backends.Verify, Backends.FindLive, QueuePolicy, SameLife, NoteZero, CheckTransition,
      Occupancies.Invalidate, Bounded;
  }

  lemma WorkedToken(c: Config, s: State, now: int, r: Request, next: Queue)
    requires r.queue in s.queues && Worked(c, s, now, s.queues[r.queue], r, false, next)
    ensures var n := Drawn(c, s, r, now);
      next.fence.token == if n == 0 then s.queues[r.queue].fence.token else s.ids.fence + n
  {
    hide Perform, Admitted, Remembered, PayloadMatches, Durable, Kept;
    var q := s.queues[r.queue];
    Soundness.AdmittedResource(c, s, q, r, false);
    PerformToken(c, EnvAt(s, q, now), q, r);
    var w := Perform(c, EnvAt(s, q, now), q, r);
    RememberedKept(c, w.queue, r, Ok, Durable(r.kind) && c.hasJournal);
    KeptToken(c, r, w.queue, next);
  }

  lemma KeptToken(c: Config, r: Request, q: Queue, next: Queue)
    requires Kept(c, r, q, next)
    ensures next.fence == q.fence
  {
    hide MemoGrows;
  }

  /** All tokens but one queue's are as they were. */
  predicate OneToken(queues: map<Id, Queue>, next: map<Id, Queue>, id: Id) {
    next.Keys == queues.Keys + {id} && forall i :: i in queues && i != id ==> next[i].fence.token == queues[i].fence.token
  }

  lemma OneTokenExact(s: State, next: State, id: Id)
    requires FenceExact(s) && OneToken(s.queues, next.queues, id)
    requires if next.ids.fence == s.ids.fence
      then next.queues[id].fence.token == if id in s.queues then s.queues[id].fence.token else 0
      else s.ids.fence < next.ids.fence && next.queues[id].fence.token == next.ids.fence
    ensures FenceExact(next)
  {
    OneTokenSet(s.queues, next.queues, id);
    TokenIn(next.queues, id);
    if id in s.queues {
      TokenIn(s.queues, id);
    }
    if next.ids.fence == s.ids.fence && s.ids.fence in Tokens(s.queues) {
      var i :| i in s.queues && s.queues[i].fence.token == s.ids.fence;
      TokenIn(next.queues, i);
    }
  }

  lemma TokenIn(queues: map<Id, Queue>, i: Id)
    requires i in queues
    ensures queues[i].fence.token in Tokens(queues)
  {
  }

  lemma OneTokenSet(queues: map<Id, Queue>, next: map<Id, Queue>, id: Id)
    requires OneToken(queues, next, id)
    ensures Tokens(next) <= Tokens(queues) + {next[id].fence.token}
  {
    forall n | n in Tokens(next) ensures n in Tokens(queues) || n == next[id].fence.token {
      var i :| i in next && next[i].fence.token == n;
      if i != id {
        TokenIn(queues, i);
      }
    }
  }

  lemma HandledOthers(c: Config, s: State, r: Request, reply: Reply, id: Id)
    requires QueuesAfter(c, s, r, false, reply) && id in reply.state.queues
    requires if r.kind.DeclareQueue? then id == s.ids.queue && reply.verdict.Took? else r.queue == id && id in s.queues
    ensures OneToken(s.queues, reply.state.queues, id)
  {
    hide Handled, SameDurable, HasTarget, CheckDeclaration, Check, Remembered;
    forall i | i in s.queues ensures i in reply.state.queues && (i != id ==> reply.state.queues[i].fence.token == s.queues[i].fence.token) {
      HandledPresent(c, s, r, false, reply, i);
      if i != id {
        HandledSideways(c, s, r, false, reply, i);
        DurableToken(s.queues[i], reply.state.queues[i]);
      }
    }
    assert forall i :: i in reply.state.queues ==> i in s.queues || i == s.ids.queue;
  }

  lemma DurableToken(q: Queue, p: Queue)
    requires SameDurable(q, p)
    ensures p.fence.token == q.fence.token
  {
  }

  lemma DeclaredToken(c: Config, s: State, r: Request, reply: Reply, i: Id)
    requires Installed(c, s, r, false, reply, i)
    ensures reply.state.queues[i].fence.token == 0
  {
    hide CheckDeclaration, Check, Remembered, Kept;
    var q := NewQueue(r, i, reply.state.watermark);
    RememberedKept(c, q, r, Ok, c.hasJournal);
    KeptToken(c, r, q, reply.state.queues[i]);
  }

  lemma MutateFence(c: Config, s: State, r: Request, clock: int)
    requires c.hasJournal && Counted(s) && Recordable(r) && FenceExact(s)
    ensures FenceExact(Apply(c, s, r, clock, Good, false).state)
  {
    hide Apply, Counted, Recordable, Drawn, FenceExact, Mirrors, Installed, Worked, OneToken, Handled, Check, PayloadMatches, Durable;
    var reply := Apply(c, s, r, clock, Good, false);
    if !(reply.verdict.Took? && Durable(r.kind)) {
      MutateUnmoved(c, s, r, clock);
      UnmovedFence(s, reply.state);
    } else {
      TookChecked(c, s, r, clock, Good, false);
      CountedNumbered(s);
      ApplyQueues(c, s, r, clock, Good, false);
      ApplyTokens(c, s, r, clock, Good, false);
      if r.kind.DeclareQueue? {
        var id := s.ids.queue;
        InstalledPresent(c, s, r, false, reply, id);
        CountedFresh(s);
        DeclaredToken(c, s, r, reply, id);
        HandledOthers(c, s, r, reply, id);
        OneTokenKeys(s.queues, reply.state.queues, id);
        OneTokenExact(s, reply.state, id);
      } else {
        HandledWorked(c, s, r, reply);
        WorkedToken(c, s, reply.state.watermark, r, reply.state.queues[r.queue]);
        HandledOthers(c, s, r, reply, r.queue);
        OneTokenKeys(s.queues, reply.state.queues, r.queue);
        OneTokenExact(s, reply.state, r.queue);
      }
    }
  }

  lemma OneTokenKeys(queues: map<Id, Queue>, next: map<Id, Queue>, id: Id)
    requires OneToken(queues, next, id)
    ensures id in next
  {
  }

  lemma CountedFresh(s: State)
    requires Counted(s)
    ensures s.ids.queue !in s.queues
  {
  }

  /** While the journal works, fence numbering stays exact. */
  lemma StepFence(c: Config, s: State, e: Event)
    requires c.hasJournal && Counted(s) && GoodIo(e) && (e.Mutate? ==> Recordable(e.request)) && FenceExact(s)
    ensures FenceExact(Step(c, s, e).state)
  {
    hide Step, Apply, Counted, Recordable, FenceExact, Mirrors;
    if e.Mutate? {
      MutateIsApply(c, s, e);
      assert e.io == Good;
      MutateFence(c, s, e.request, e.clock);
    } else {
      OtherUnmoved(c, s, e);
      UnmovedFence(s, Step(c, s, e).state);
    }
  }

  /** Every recovery makes fence numbering exact again. */
  lemma RestartFence(c: Config, s: State, e: Event)
    requires e.Restart? && Step(c, s, e).verdict.Took?
    ensures FenceExact(Step(c, s, e).state)
  {
    hide Load, Base, Replay, Distrust, Apply, Survivor, NamesOf, WithCount;
    assert Unfold(c, s, e);
    assert Tokens(map[]) == {};
  }

  // ---- replay and the journal -----------------------------------------------

  predicate GoodFeed(feed: seq<Moment>) {
    forall k :: 0 <= k < |feed| ==> feed[k].io.Good?
  }

  lemma ReplayOne(c: Config, base: State, order: seq<Request>, r: Request, feed: seq<Moment>)
    ensures Replay(c, base, order + [r], feed) ==
      Apply(c, Replay(c, base, order, feed), r, MomentAt(feed, |order|).clock, MomentAt(feed, |order|).io, true).state
  {
    hide Apply;
    assert (order + [r])[..|order|] == order;
  }

  /** The replayed requests that are committed again, in order. */
  function TakenIn(c: Config, base: State, order: seq<Request>, feed: seq<Moment>): seq<Request> {
    if order == [] then []
    else
      var n := |order| - 1;
      var before := Replay(c, base, order[..n], feed);
      var took := Apply(c, before, order[n], MomentAt(feed, n).clock, MomentAt(feed, n).io, true).verdict.Took?;
      TakenIn(c, base, order[..n], feed) + if took && Durable(order[n].kind) then [order[n]] else []
  }

  lemma TakenOne(c: Config, base: State, order: seq<Request>, r: Request, feed: seq<Moment>)
    ensures var took := Apply(c, Replay(c, base, order, feed), r, MomentAt(feed, |order|).clock, MomentAt(feed, |order|).io, true).verdict.Took?;
      TakenIn(c, base, order + [r], feed) == TakenIn(c, base, order, feed) + if took && Durable(r.kind) then [r] else []
  {
    hide Apply, Durable;
    assert (order + [r])[..|order|] == order;
  }

  lemma {:induction false} TakenMembers(c: Config, base: State, order: seq<Request>, feed: seq<Moment>, k: nat)
    requires k < |TakenIn(c, base, order, feed)|
    ensures TakenIn(c, base, order, feed)[k] in order && Durable(TakenIn(c, base, order, feed)[k].kind)
  {
    hide Apply, Durable;
    var n := |order| - 1;
    if k < |TakenIn(c, base, order[..n], feed)| {
      TakenMembers(c, base, order[..n], feed, k);
      assert TakenIn(c, base, order, feed)[k] == TakenIn(c, base, order[..n], feed)[k];
    }
  }

  /** Topology and the resources themselves are as they were. */
  predicate SameHouses(resources: map<Id, Resource>, others: map<Id, Resource>) {
    others.Keys == resources.Keys && forall i :: i in resources ==> SameTopology(resources[i], others[i])
  }

  lemma SameHousesChain(a: map<Id, Resource>, b: map<Id, Resource>, d: map<Id, Resource>)
    requires SameHouses(a, b) && SameHouses(b, d)
    ensures SameHouses(a, d)
  {
  }

  lemma SameHousesAgree(a: map<Id, Resource>, b: map<Id, Resource>)
    requires SameHouses(a, b)
    ensures Agrees(a, b) && Agrees(b, a)
  {
  }

  lemma {:induction false} ReplayTopology(c: Config, base: State, order: seq<Request>, feed: seq<Moment>)
    ensures SameHouses(base.resources, Replay(c, base, order, feed).resources)
  {
    hide Apply, Heard, Journalled;
    if order != [] {
      var n := |order| - 1;
      ReplayTopology(c, base, order[..n], feed);
      var before := Replay(c, base, order[..n], feed);
      ApplyRest(c, before, order[n], MomentAt(feed, n).clock, MomentAt(feed, n).io, true);
      SameHousesChain(base.resources, before.resources, Replay(c, base, order, feed).resources);
    }
  }

  /** What the journal reads back as, apart from epochs and open attempts. */
  predicate ReadsOn(l: Loaded, next: Loaded, more: seq<Request>) {
    next.order == l.order + more && next.queues == l.queues && next.resources == l.resources
  }

  lemma AppliedReads(c: Config, s: State, r: Request, m: Moment)
    requires c.hasJournal && m.io.Good? && Decodable(r) && Flushed(s)
    ensures var reply := Apply(c, s, r, m.clock, m.io, true);
      && reply.state.journal.headerEpoch == s.journal.headerEpoch && Flushed(reply.state)
      && ReadsOn(Stored(s), Stored(reply.state), if reply.verdict.Took? && Durable(r.kind) then [r] else [])
      && Stored(reply.state).epoch == Stored(s).epoch && reply.state.epoch == s.epoch
  {
    hide Apply, Load, Heard, SameButCount, Encodable, Durable, Decodable;
    var reply := Apply(c, s, r, m.clock, m.io, true);
    ApplyRest(c, s, r, m.clock, m.io, true);
    var j, k := s.journal, reply.state.journal;
    assert k.records == k.records[..|j.records|] + Added(j, k);
    LoadCommit(j.records, j.headerEpoch, r);
    LoadMarker(j.records, j.headerEpoch, r);
    assert j.records + [] == j.records;
  }

  /** Replaying appends what it takes behind what was there. */
  lemma {:induction false} ReplayReads(c: Config, base: State, order: seq<Request>, feed: seq<Moment>)
    requires c.hasJournal && GoodFeed(feed) && Flushed(base) && AllDecodable(order)
    ensures var t := Replay(c, base, order, feed);
      && t.journal.headerEpoch == base.journal.headerEpoch && Flushed(t) && ReadsOn(Stored(base), Stored(t), TakenIn(c, base, order, feed))
      && Stored(t).epoch == Stored(base).epoch && t.epoch == base.epoch
  {
    hide Apply, Load, Durable, Decodable, Flushed, Stored;
    var first := Stored(base).order;
    if order == [] {
      assert first + [] == first;
    } else {
      var n := |order| - 1;
      var before := TakenIn(c, base, order[..n], feed);
      ReplayReads(c, base, order[..n], feed);
      AppliedReads(c, Replay(c, base, order[..n], feed), order[n], MomentAt(feed, n));
      var more := TakenIn(c, base, order, feed)[|before|..];
      assert first + before + more == first + (before + more);
    }
  }

  predicate AllDecodable(order: seq<Request>) {
    forall k :: 0 <= k < |order| ==> Decodable(order[k])
  }

  lemma {:induction false} OrderDecodable(records: seq<Record>, header: nat)
    ensures AllDecodable(Load(records, header).order)
  {
    hide StorableQueue, StorableResource, Restored, Decodable;
    if records != [] {
      OrderDecodable(records[..|records| - 1], header);
    }
  }

  /** The header's epoch plays no part in what else is read. */
  lemma {:induction false} LoadHeaderFree(records: seq<Record>, header: nat, other: nat)
    ensures ReadsOn(Load(records, header), Load(records, other), [])
  {
    hide Absorb;
    if records != [] {
      var n := |records| - 1;
      LoadHeaderFree(records[..n], header, other);
      AbsorbHeaderFree(Load(records[..n], header), Load(records[..n], other), records[n]);
    }
  }

  lemma AbsorbHeaderFree(l: Loaded, other: Loaded, rec: Record)
    requires ReadsOn(l, other, [])
    ensures ReadsOn(Absorb(l, rec), Absorb(other, rec), [])
  {
    hide StorableQueue, StorableResource, Restored, Decodable;
  }

  /** Under another header the epoch read is no higher than both. */
  lemma {:induction false} LoadHeaderEpoch(records: seq<Record>, header: nat, other: nat)
    ensures var least := Load(records, header).epoch; Load(records, other).epoch <= if least > other then least else other
  {
    hide StorableQueue, StorableResource, Restored, Decodable;
    if records != [] {
      LoadHeaderEpoch(records[..|records| - 1], header, other);
    }
  }

  lemma RebuiltEpoch(t: State, outstanding: map<Attempt, Request>)
    requires Stored(t).epoch <= t.epoch
    ensures var next := Announce(Rebuild(Distrust(t, outstanding))); next.epoch == t.epoch && Stored(next).epoch == t.epoch
  {
    hide Load, NamesOf, FreshIds, QueuesOf, AllDistrusted;
    var records := t.journal.records;
    var rec := EpochState(t.boot, t.epoch, t.incarnation);
    LoadHeaderEpoch(records, t.journal.headerEpoch, t.epoch);
    LoadAnother(records, rec, t.epoch);
    LoadEpochAt(records + [rec], t.epoch, |records|);
  }

  lemma RebuiltReads(t: State, outstanding: map<Attempt, Request>)
    ensures var next := Announce(Rebuild(Distrust(t, outstanding)));
      Flushed(next) && ReadsOn(Stored(t), Stored(next), []) && SameHouses(t.resources, next.resources)
  {
    hide Load, NamesOf, FreshIds, QueuesOf, AllDistrusted;
    var records, header := t.journal.records, t.journal.headerEpoch;
    var rec := EpochState(t.boot, t.epoch, t.incarnation);
    LoadNeutral(records, t.epoch, rec);
    LoadHeaderFree(records, header, t.epoch);
  }

  lemma BaseReads(l: Loaded, j: Journal, boot: Boot)
    ensures Base(l, j, boot).journal == j && SameHouses(l.resources, Base(l, j, boot).resources) && Base(l, j, boot).queues == l.queues
    ensures Base(l, j, boot).epoch == NextEpoch(l.epoch)
    ensures !Base(l, j, boot).shuttingDown && Base(l, j, boot).ids.fence == Extremes.Greatest(Tokens(l.queues))
  {
    hide NamesOf, QueuesOf, AllDead, Extremes.Greatest;
  }

  lemma RestartOfFlushed(c: Config, s: State, keep: nat, boot: Boot, feed: seq<Moment>, clock: int)
    requires c.hasJournal && Flushed(s)
    ensures Step(c, s, Restart(keep, boot, feed, clock)) == Recover(c, s.journal, boot, feed, clock)
    ensures Recover(c, s.journal, boot, feed, clock).verdict.Took? <==> Stored(s).epoch != COUNTER_MAX
  {
    hide Step, Load, Base, Replay, Distrust, Rebuild, Announce, Apply;
    Snapshots.RestartRecovers(c, s, keep, boot, feed, clock);
  }

  /** After a recovery the journal holds the old commits and then, again, those
      that replay took. */
  lemma RestartReads(c: Config, s: State, e: Event)
    requires c.hasJournal && Flushed(s) && e.Restart? && GoodFeed(e.feed) && Step(c, s, e).verdict.Took?
    ensures var next, base := Step(c, s, e).state, Base(Stored(s), s.journal, e.boot);
      && Flushed(next) && SameHouses(Stored(s).resources, next.resources)
      && ReadsOn(Stored(s), Stored(next), TakenIn(c, base, Commits(s), e.feed))
      && next.epoch == NextEpoch(Stored(s).epoch) && Stored(next).epoch == next.epoch
  {
    hide Step, Load, Base, Replay, Distrust, Rebuild, Announce, TakenIn;
    var l := Stored(s);
    var base := Base(l, s.journal, e.boot);
    RestartOfFlushed(c, s, e.keep, e.boot, e.feed, e.clock);
    OrderDecodable(s.journal.records, s.journal.headerEpoch);
    BaseReads(l, s.journal, e.boot);
    ReplayReads(c, base, l.order, e.feed);
    ReplayTopology(c, base, l.order, e.feed);
    var t := Replay(c, base, l.order, e.feed);
    RebuiltReads(t, l.outstanding);
    RebuiltEpoch(t, l.outstanding);
    SameHousesChain(l.resources, base.resources, t.resources);
    SameHousesChain(l.resources, t.resources, Announce(Rebuild(Distrust(t, l.outstanding))).resources);
  }

  /** Recovery keeps the queues replay left, in everything durable. */
  lemma RestartQueues(c: Config, s: State, e: Event)
    requires c.hasJournal && Flushed(s) && e.Restart? && Step(c, s, e).verdict.Took?
    ensures SameQueues(Replay(c, Base(Stored(s), s.journal, e.boot), Commits(s), e.feed).queues, Step(c, s, e).state.queues)
  {
    hide Step, Load, Base, Replay, Distrust, Rebuild, Announce, SameQueues;
    var l := Stored(s);
    RestartOfFlushed(c, s, e.keep, e.boot, e.feed, e.clock);
    var t := Replay(c, Base(l, s.journal, e.boot), l.order, e.feed);
    DistrustDurable(t, l.outstanding);
    RebuildRest(Distrust(t, l.outstanding));
    AnnounceQueues(Rebuild(Distrust(t, l.outstanding)));
  }

  lemma DistrustDurable(s: State, outstanding: map<Attempt, Request>)
    ensures SameQueues(s.queues, Distrust(s, outstanding).queues)
  {
    hide Orphaned, Occupancies.Invalidate;
  }

  lemma AnnounceQueues(s: State)
    ensures Announce(s).queues == s.queues
  {
  }

  lemma AgreesChain(a: map<Id, Resource>, b: map<Id, Resource>, d: map<Id, Resource>)
    requires Agrees(a, b) && Agrees(b, d)
    ensures Agrees(a, d)
  {
  }
}
