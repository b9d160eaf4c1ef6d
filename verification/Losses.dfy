/** What a restart can lose, shown on runs from an empty journal. */
module Losses {
  import opened Status
  import opened Entities
  import opened Mutations
  import opened Work
  import opened Machine
  import opened Recovery
  import opened Run
  import opened Steps
  import opened Scenario
  import opened Ledger
  import Reach
  import Snapshots
  import Counts
  import Names
  import GoodRuns
  import Authorities
  import Memos
  import Provenances

  // ---- a class redeclared behind a declaration ------------------------------

  /** Replay runs against the topology of the whole journal: a declaration bound
      to a class generation that was superseded later is refused. */
  lemma SupersededDeclarationDropped(c: Config, s: State, r: Request, m: Moment)
    requires r.kind.DeclareQueue? && r.payload.DeclarePayload?
    requires r.payload.resource in s.resources ==> !CheckBinding(s.resources[r.payload.resource].classes, r.payload.cls).Ok?
    ensures var reply := Apply(c, s, r, m.clock, m.io, true);
      && !reply.verdict.Took? && reply.state.queues == s.queues && reply.state.names == s.names && reply.state.ids == s.ids
      && reply.state.resources == s.resources && reply.state.publishers == s.publishers
      && reply.state.epoch == s.epoch && reply.state.shuttingDown == s.shuttingDown
  {
    hide Check, ApplyDeclare, ApplyExisting, Score, CheckBinding, CheckDeclaration;
    UnplacedDeclaration(c, s, r);
    RefusedDeclaration(c, s, Later(s.watermark, m.clock), r, m.io);
  }

  lemma RefusedDeclaration(c: Config, s: State, now: int, r: Request, io: Io)
    requires r.payload.DeclarePayload? && !CheckDeclaration(c, s, r, true).Took?
    ensures var reply := ApplyDeclare(c, s, now, r, io, true);
      !reply.verdict.Took? && reply.state == s.(watermark := now, tally := reply.state.tally)
  {
    hide CheckDeclaration, Install, Commit, Score;
  }

  lemma UnplacedDeclaration(c: Config, s: State, r: Request)
    requires r.payload.DeclarePayload?
    requires r.payload.resource in s.resources ==> !CheckBinding(s.resources[r.payload.resource].classes, r.payload.cls).Ok?
    ensures !CheckDeclaration(c, s, r, true).Took?
  {
    hide Authorities.Authorize, FindPool, QueuesOf, Provenances.Classify, SameDeclaration;
  }

  // ---- the run --------------------------------------------------------------

  function House4(group: Text): Resource {
    House3(group).(classes := [TheClass(group, 2)], generation := 3)
  }

  function Reclassified(s: State, group: Text, clock: int): State {
    Logged(s, ResourceState(House4(group))).(
      resources := map[1 := House4(group)], queues := AllUnbound(s.queues, 1, TheClass(group, 2)), watermark := Later(s.watermark, clock))
  }

  /** The house with its class, pool and queue stands. */
  predicate Settled(s: State, group: Text) {
    !s.shuttingDown && s.resources == map[1 := House3(group)]
  }

  lemma AgainEdit(c: Config, s: State, group: Text)
    requires Settled(s, group)
    ensures NextClass(s, 1, [99], 0, Qos(0, 0, group), Sender(2)) == TheClass(group, 2)
    ensures ClassEdit(c, s, 1, [99], 0, Qos(0, 0, group), 1, 1, Sender(2)) == Edit(House4(group), s.ids)
  {
    hide Authorities.Authorize;
    OwnerAllowed(House0().authority.grants, DeclareTopology);
    assert ClassNamed([TheClass(group, 1)], [99]) == Some(TheClass(group, 1));
    assert SetClass([TheClass(group, 1)], TheClass(group, 2)) == [TheClass(group, 2)];
  }

  lemma AgainStep(c: Config, s: State, group: Text, clock: int)
    requires c.hasJournal && Settled(s, group)
    ensures Step(c, s, Classify(group, clock)) == Reply(Reclassified(s, group, clock), Took)
  {
    hide Apply, GrantCapabilities, DeclareResource, DeclarePool, AddBackend, MarkDead, AdvanceEpoch, InvalidateEvidence, Refresh, Explain, Reserve,
      CommitPlan, AbortPlan, Compact, Shutdown, Recover, ClassEdit, NextClass, Unbound;
    assert Unfold(c, s, Classify(group, clock));
    AgainEdit(c, s, group);
    assert s.resources[1 := House4(group)] == map[1 := House4(group)];
  }

  function Story(group: Text): seq<Event> {
    Opening(group) + [Classify(group, 0)]
  }

  lemma StoryRuns(c: Config, boot: Boot, group: Text)
    requires Roomy(c)
    ensures Exec(c, Start(c, boot), Story(group)) == Reclassified(Declared1(c, boot, group), group, 0)
  {
    hide Step, Start, Reclassified, Opening, Exec;
    OpeningRuns(c, boot, group);
    AgainStep(c, Declared1(c, boot, group), group, 0);
    ExecOne(c, Start(c, boot), Opening(group), Classify(group, 0));
  }

  // ---- what the journal of the run reads back as ----------------------------

  lemma LoggedReads(s: State, rec: Record)
    ensures Stored(Logged(s, rec)) == Absorb(Stored(s), rec)
  {
    hide Absorb;
    assert (s.journal.records + [rec])[..|s.journal.records|] == s.journal.records;
  }

  lemma HousesStorable()
    ensures StorableResource(House0()) && StorableResource(House1([])) && Decodable(First())
  {
  }

  lemma LaterHousesStorable()
    ensures StorableResource(House2([])) && StorableResource(House4([]))
  {
  }

  /** The journal before the declaration reads back as the house. */
  lemma TopologyReads(boot: Boot)
    ensures Stored(Filled(boot, [])) == Loaded(1, 2, map[1 := House2([])], map[], map[], [])
  {
    hide StorableResource, StorableQueue, Restored, Decodable, Load, House0, House1, House2;
    HousesStorable();
    LaterHousesStorable();
    HouseIds();
    OpenedReads(boot);
    LoggedReads(Opened(boot), ResourceState(House0()));
    LoggedReads(Housed(boot), ResourceState(House1([])));
    LoggedReads(Classified(boot, []), ResourceState(House2([])));
    assert Stored(Housed(boot)).resources == map[1 := House0()];
    assert Stored(Classified(boot, [])).resources == map[1 := House1([])];
  }

  lemma StoryReads(c: Config, boot: Boot)
    ensures Stored(Reclassified(Declared1(c, boot, []), [], 0)) == Loaded(1, 2, map[1 := House4([])], map[], map[], [First()])
  {
    hide StorableResource, StorableQueue, Restored, Decodable, Load, House2, House3, House4, First, Unbound, TheQueue, Filled;
    HousesStorable();
    LaterHousesStorable();
    HouseIds();
    TopologyReads(boot);
    var s3 := Filled(boot, []);
    LoggedReads(s3, BeginAttempt(First()));
    var s4 := Logged(s3, BeginAttempt(First()));
    LoggedReads(s4, CommitMutation(First()));
    var s5 := Declared1(c, boot, []);
    LoggedReads(s5, ResourceState(House4([])));
    assert Stored(s4).outstanding == map[First().attempt := First()];
    assert Stored(s5).outstanding == map[];
  }

  lemma HouseIds()
    ensures House0().id == 1 && House1([]).id == 1 && House2([]).id == 1 && House4([]).id == 1
  {
  }

  lemma OpenedReads(boot: Boot)
    ensures Stored(Opened(boot)) == Loaded(1, 2, map[], map[], map[], [])
  {
    var none: seq<Record> := [];
    Snapshots.LoadOne(none, EpochState(boot, 1, 1), 1);
    assert Load(none, 1) == Loaded(1, 1, map[], map[], map[], []);
    assert none + [EpochState(boot, 1, 1)] == [EpochState(boot, 1, 1)];
  }

  // ---- recovering it --------------------------------------------------------

  /** The house of the second life: no queue, second epoch. */
  predicate Bereft(s: State) {
    && s.queues == map[] && s.names == map[] && s.ids.queue == 1 && s.epoch == 2 && !s.shuttingDown && s.publishers == map[]
    && s.resources.Keys == {1}
    && var r := s.resources[1];
      r.id == 1 && r.classes == [TheClass([], 2)] && r.pools == House2([]).pools && r.authority == Authority(1, 2, [Grant(1, EVERYTHING)])
  }

  lemma NothingIndexed(resources: map<Id, Resource>)
    ensures NamesOf(map[]) == map[] && FreshIds(resources, map[]).queue == 1
  {
    var none: map<Id, Queue> := map[];
    assert none.Keys == {};
  }

  lemma BaseBereft(l: Loaded, j: Journal, boot: Boot)
    requires l == Loaded(1, 2, map[1 := House4([])], map[], map[], [First()])
    ensures Bereft(Base(l, j, boot))
  {
    hide AllDead, QueuesOf, NamesOf, FreshIds;
    NothingIndexed(AllAdopted(l.resources, 2));
  }

  lemma ReplayBereft(c: Config, s: State)
    requires Bereft(s)
    ensures Bereft(Replay(c, s, [First()], []))
  {
    hide Apply;
    var order := [First()];
    assert order[..0] == [] && Replay(c, s, order[..0], []) == s;
    SupersededDeclarationDropped(c, s, First(), MomentAt([], 0));
  }

  lemma FinishBereft(s: State, clock: int)
    requires Bereft(s)
    ensures var done := Announce(Rebuild(Distrust(s, map[]))); Bereft(done.(watermark := Later(done.watermark, clock)))
  {
    hide QueuesOf, NamesOf, FreshIds, Orphaned, Distrusted;
    assert Distrust(s, map[]).queues == map[];
    NothingIndexed(s.resources);
  }

  /** Declare a queue, redeclare its class, crash: queue and name are gone and
      the identity is free, although every record was on stable storage and
      recovery reports success. */
  lemma RestartLosesQueue(c: Config, boot: Boot, keep: nat, again: Boot)
    requires Roomy(c)
    ensures var s := Exec(c, Start(c, boot), Story([]));
      var reply := Step(c, s, Restart(keep, again, [], 0));
      && s.queues.Keys == {1} && s.names == map[NameKey(1, [113]) := 1] && GoodRuns.Flushed(s)
      && reply.verdict.Took? && Bereft(reply.state)
  {
    hide Step, Start, Exec, Story, Load, Base, Replay, Distrust, Rebuild, Announce, Bereft, TheQueue, First;
    var s := Exec(c, Start(c, boot), Story([]));
    StoryRuns(c, boot, []);
    StoryReads(c, boot);
    RestartOfFlushed(c, s, keep, again, [], 0);
    var l := Stored(s);
    var base := Base(l, s.journal, again);
    BaseBereft(l, s.journal, again);
    ReplayBereft(c, base);
    FinishBereft(Replay(c, base, l.order, []), 0);
  }

  function Second(): Request {
    Declaration(2, [120], 2, 2)
  }

  lemma SecondChecked(c: Config, s: State)
    requires Roomy(c) && Bereft(s)
    ensures Check(Second()) == Ok && CheckDeclaration(c, s, Second(), false) == Took && Encodable(Second())
  {
    assert QueuesOf(s.queues, 1) == {};
    assert Authorities.Holds(EVERYTHING, Capability.DeclareQueues);
  }

  lemma SecondStep(c: Config, s: State)
    requires Roomy(c) && Bereft(s)
    ensures var next := Step(c, s, Mutate(Second(), 0, Good)).state;
      1 in next.queues && next.queues[1].def == NewQueue(Second(), 1, next.watermark).def
  {
    hide ApplyExisting, GrantCapabilities, DeclareResource, DeclareClass, DeclarePool, AddBackend, MarkDead, AdvanceEpoch, InvalidateEvidence,
      Refresh, Explain, Reserve, CommitPlan, AbortPlan, Compact, Shutdown, Recover, Check, CheckDeclaration, EffectOf, Memos.Remember,
      Provenances.Observe, Encodable;
    assert Unfold(c, s, Mutate(Second(), 0, Good));
    SecondChecked(c, s);
  }

  /** So across restarts a generation does not identify a definition, and a
      queue's identity and name do not last. */
  lemma IdentityGivenAgain(c: Config, boot: Boot, keep: nat, again: Boot)
    requires Roomy(c)
    ensures var s := Exec(c, Start(c, boot), Story([]));
      var next := Exec(c, Start(c, boot), Story([]) + [Restart(keep, again, [], 0)] + [Mutate(Second(), 0, Good)]);
      && 1 in s.queues && 1 in next.queues
      && s.queues[1].def.generation == next.queues[1].def.generation && s.queues[1].def.name != next.queues[1].def.name
      && NameKey(1, [113]) in s.names
  {
    hide Step, Start, Exec, Story, Bereft, Remembered;
    var s := Exec(c, Start(c, boot), Story([]));
    RestartLosesQueue(c, boot, keep, again);
    ExecOne(c, Start(c, boot), Story([]), Restart(keep, again, [], 0));
    ExecOne(c, Start(c, boot), Story([]) + [Restart(keep, again, [], 0)], Mutate(Second(), 0, Good));
    SecondStep(c, Step(c, s, Restart(keep, again, [], 0)).state);
    StoryRuns(c, boot, []);
    QueueAsDeclared(c);
  }

  lemma QueueAsDeclared(c: Config)
    ensures TheQueue(c).def == NewQueue(First(), 1, 0).def
  {
    hide EffectOf, Memos.Remember;
  }

  // ---- a group name too long to be stored -----------------------------------

  lemma {:induction false} PlainServes(c: Config, s: State, es: seq<Event>)
    requires forall k :: 0 <= k < |es| ==> !es[k].Restart?
    ensures Reach.Serves(c, s, es)
  {
    hide Step;
    if es != [] {
      PlainServes(c, s, es[..|es| - 1]);
    }
  }

  lemma OpeningInv(c: Config, boot: Boot, group: Text)
    requires Roomy(c)
    ensures Reach.Inv(c, Declared1(c, boot, group)) && Names.NameInv(c, Declared1(c, boot, group))
  {
    hide Step, Start, Reach.Inv, Names.NameInv, Exec, Declared1;
    OpeningRuns(c, boot, group);
    PlainServes(c, Start(c, boot), Opening(group));
    Reach.StartInv(c, boot);
    Names.StartNames(c, boot);
    Reach.ExecInv(c, Start(c, boot), Opening(group));
    Names.ExecNames(c, Start(c, boot), Opening(group));
  }

  lemma WhatFits(c: Config, boot: Boot, group: Text)
    requires |group| > MAX_NAME
    ensures !StorableResource(House3(group)) && StorableQueue(TheQueue(c))
    ensures Snapshots.StorableResources(Declared1(c, boot, group)) == {}
  {
    hide EffectOf;
    assert House3(group).classes[0].qos.group == group;
    assert |TheQueue(c).memo| <= 1;
  }

  lemma CompactTaken(c: Config, boot: Boot, group: Text)
    requires c.hasJournal
    ensures Step(c, Declared1(c, boot, group), CompactJournal(Good)).verdict.Took?
  {
    hide Apply, DeclareResource, GrantCapabilities, DeclareClass, DeclarePool, AddBackend, MarkDead, AdvanceEpoch, InvalidateEvidence, Refresh,
      Explain, Reserve, CommitPlan, AbortPlan, Shutdown, Recover, Snapshot, TheQueue, House3, First;
    assert Unfold(c, Declared1(c, boot, group), CompactJournal(Good));
  }

  /** Declaring a class never checks the length of its group. With a longer one
      than the format holds, compaction succeeds, recovery succeeds, and the
      resource is gone: its queue is left without one and its identity is free. */
  lemma ResourceLost(c: Config, boot: Boot, group: Text, keep: nat, again: Boot, feed: seq<Moment>, clock: int)
    requires Roomy(c) && |group| > MAX_NAME
    ensures var s := Exec(c, Start(c, boot), Opening(group) + [CompactJournal(Good)]);
      var reply := Step(c, s, Restart(keep, again, feed, clock));
      && s.resources.Keys == {1} && reply.verdict.Took?
      && reply.state.resources == map[] && reply.state.ids.resource == 1
      && reply.state.queues.Keys == {1} && !Counts.Homed(reply.state)
  {
    hide Step, Start, Exec, Opening, Snapshots.Retains, TheQueue, House3, Reach.Inv, Names.NameInv, StorableQueue, StorableResource;
    var s := Declared1(c, boot, group);
    OpeningRuns(c, boot, group);
    OpeningInv(c, boot, group);
    ExecOne(c, Start(c, boot), Opening(group), CompactJournal(Good));
    CompactTaken(c, boot, group);
    Snapshots.CompactedJournal(c, s, Good);
    Snapshots.CompactThenRecoverExactly(c, s, Good, keep, again, feed, clock);
    WhatFits(c, boot, group);
    LostFrom(c, s, Step(c, Step(c, s, CompactJournal(Good)).state, Restart(keep, again, feed, clock)).state, again);
  }

  lemma NoIdsTaken(queues: map<Id, Queue>)
    ensures FreshIds(map[], queues).resource == 1
  {
    var none: map<Id, Resource> := map[];
    assert none.Keys == {};
  }

  lemma LostFrom(c: Config, s: State, next: State, boot: Boot)
    requires Snapshots.Retains(c, s, next, boot) && Snapshots.StorableResources(s) == {}
    requires s.queues.Keys == {1} && StorableQueue(s.queues[1])
    ensures next.resources == map[] && next.ids.resource == 1 && next.queues.Keys == {1} && !Counts.Homed(next)
  {
    hide StorableQueue, StorableResource, Snapshots.Revalidated, QueuesOf, Names.Indexed, Lifeless;
    assert next.queues.Keys == {1};
    assert next.resources == map[];
    NoIdsTaken(next.queues);
    assert 1 in next.queues;
  }
}
