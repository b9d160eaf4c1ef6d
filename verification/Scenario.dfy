/** A small run on an empty journal: one resource, one class, one pool and one
    queue, written out state by state. */
module Scenario {
  import opened Status
  import opened Entities
  import opened Mutations
  import opened Work
  import opened Machine
  import opened Recovery
  import opened Run
  import Authorities
  import Laws
  import Provenances

  /** A journal and room for one of everything. */
  predicate Roomy(c: Config) {
    && c.hasJournal && c.limits.maxResources >= 1 && c.limits.maxClasses >= 1 && c.limits.maxPools >= 1
    && c.limits.maxQueues >= 1 && c.limits.maxQueuesPerResource >= 1
  }

  function Sender(sequence: nat): Provenance {
    Provenance(1, 1, 1, 1, sequence, Boot(1, 1))
  }

  // ---- the calls ------------------------------------------------------------

  function House(): Event {
    Event.NewResource([114], 1, Sender(1), 0, Good)
  }

  /** Declares the class, or its next generation; nothing bounds the group. */
  function Classify(group: Text, clock: int): Event {
    NewClass(1, [99], 0, Qos(0, 0, group), 1, 1, Sender(2), clock, Good)
  }

  function Fill(): Event {
    NewPool(1, [112], 0, 1, 1, Sender(3), 0, Good)
  }

  /** A declaration bound to one generation of the class. */
  function Declaration(counter: nat, name: Text, cls: nat, epoch: nat): Request {
    Request(Attempt(1, counter), DeclareQueue, 0, 0, epoch, 1, Sender(counter + 3),
      DeclarePayload(1, name, 8, ClassBinding(1, cls), PoolRef(1, 1, 0), Thresholds(0, 0, 0, 0, 0)))
  }

  function First(): Request {
    Declaration(1, [113], 1, 1)
  }

  function Opening(group: Text): seq<Event> {
    [House(), Classify(group, 0), Fill(), Mutate(First(), 0, Good)]
  }

  // ---- the states -----------------------------------------------------------

  function Logged(s: State, rec: Record): State {
    s.(journal := s.journal.(records := s.journal.records + [rec], synced := |s.journal.records| + 1))
  }

  function Opened(boot: Boot): State {
    Blank(boot).(journal := Journal([EpochState(boot, 1, 1)], 1, 1))
  }

  function House0(): Resource {
    Machine.NewResource(1, [114], 1, 1, Sender(1), 0)
  }

  function Housed(boot: Boot): State {
    var s := Opened(boot);
    Logged(s, ResourceState(House0())).(resources := map[1 := House0()], ids := s.ids.(resource := 2))
  }

  function TheClass(group: Text, generation: nat): Class {
    Class(1, 1, [99], 0, Qos(0, 0, group), generation, Sender(2))
  }

  function House1(group: Text): Resource {
    House0().(classes := [TheClass(group, 1)], generation := 2)
  }

  function Classified(boot: Boot, group: Text): State {
    var s := Housed(boot);
    Logged(s, ResourceState(House1(group))).(resources := map[1 := House1(group)], ids := s.ids.(cls := 2))
  }

  function House2(group: Text): Resource {
    House1(group).(pools := [Pool(1, 1, [112], 0, 1, Sender(3))])
  }

  function Filled(boot: Boot, group: Text): State {
    var s := Classified(boot, group);
    Logged(s, ResourceState(House2(group))).(resources := map[1 := House2(group)], ids := s.ids.(pool := 2))
  }

  function TheQueue(c: Config): Queue {
    Remembered(c, NewQueue(First(), 1, 0), First(), Ok, true)
  }

  function House3(group: Text): Resource {
    House2(group).(queueCount := 1)
  }

  function Declared1(c: Config, boot: Boot, group: Text): State {
    var s := Filled(boot, group);
    Logged(Logged(s, BeginAttempt(First())), CommitMutation(First())).(
      resources := map[1 := House3(group)], ids := s.ids.(queue := 2), queues := map[1 := TheQueue(c)],
      names := map[NameKey(1, [113]) := 1], publishers := Provenances.Observe(map[], Sender(4)), tally := Tally(1, 0, 0))
  }

  // ---- the run --------------------------------------------------------------

  lemma StartIsOpened(c: Config, boot: Boot)
    requires c.hasJournal
    ensures Start(c, boot) == Opened(boot)
  {
    hide Apply, Adopted, Distrusted, Orphaned, StorableQueue, StorableResource, Restored, Decodable;
    var none: map<Id, Queue> := map[];
    var nothing: map<Id, Resource> := map[];
    assert FreshIds(nothing, none) == Ids(1, 1, 1, 1, 1, 0);
    assert AllCounted(nothing, none) == nothing && NamesOf(none) == map[];
  }

  lemma HouseStep(c: Config, boot: Boot)
    requires Roomy(c)
    ensures Step(c, Opened(boot), House()) == Reply(Housed(boot), Took)
  {
    hide Apply, GrantCapabilities, DeclareClass, DeclarePool, AddBackend, MarkDead, AdvanceEpoch, InvalidateEvidence, Refresh, Explain, Reserve,
      CommitPlan, AbortPlan, Compact, Shutdown, Recover;
    assert Unfold(c, Opened(boot), House());
  }

  /** The owner of the house may do anything on its topology. */
  lemma OwnerAllowed(grants: seq<Grant>, required: Capability)
    requires grants == [Grant(1, EVERYTHING)] && required in EVERYTHING
    ensures Authorities.Authorize(Authority(1, 1, grants), 1, required, 1, Flags(false, false), Active) == Ok
  {
    hide Authorities.Authorize, Authorities.CapabilitiesOf;
    Laws.FirstGrantDecides(grants, 1, 0);
    Laws.AuthorizationIsExact(Authority(1, 1, grants), 1, required, 1, Flags(false, false), Active);
  }

  lemma ClassifyEdit(c: Config, boot: Boot, group: Text)
    requires Roomy(c)
    ensures NextClass(Housed(boot), 1, [99], 0, Qos(0, 0, group), Sender(2)) == TheClass(group, 1)
    ensures ClassEdit(c, Housed(boot), 1, [99], 0, Qos(0, 0, group), 1, 1, Sender(2)) == Edit(House1(group), Classified(boot, group).ids)
  {
    hide Authorities.Authorize;
    OwnerAllowed(House0().authority.grants, DeclareTopology);
    assert ClassNamed([], [99]) == None;
    assert House0().classes + [TheClass(group, 1)] == [TheClass(group, 1)];
  }

  lemma ClassifyStep(c: Config, boot: Boot, group: Text)
    requires Roomy(c)
    ensures Step(c, Housed(boot), Classify(group, 0)) == Reply(Classified(boot, group), Took)
  {
    hide Apply, GrantCapabilities, DeclareResource, DeclarePool, AddBackend, MarkDead, AdvanceEpoch, InvalidateEvidence, Refresh, Explain, Reserve,
      CommitPlan, AbortPlan, Compact, Shutdown, Recover, ClassEdit, NextClass;
    assert Unfold(c, Housed(boot), Classify(group, 0));
    ClassifyEdit(c, boot, group);
    assert AllUnbound(Housed(boot).queues, 1, TheClass(group, 1)) == map[];
    assert Housed(boot).resources[1 := House1(group)] == map[1 := House1(group)];
  }

  lemma FillEdit(c: Config, boot: Boot, group: Text)
    requires Roomy(c)
    ensures PoolEdit(c, Classified(boot, group), 1, [112], 0, 1, 1, Sender(3)) == Edit(House2(group), Filled(boot, group).ids)
  {
    hide Authorities.Authorize;
    OwnerAllowed(House0().authority.grants, DeclareTopology);
    assert PoolNamed([], [112]) == None;
  }

  lemma FillStep(c: Config, boot: Boot, group: Text)
    requires Roomy(c)
    ensures Step(c, Classified(boot, group), Fill()) == Reply(Filled(boot, group), Took)
  {
    hide Apply, GrantCapabilities, DeclareResource, DeclareClass, AddBackend, MarkDead, AdvanceEpoch, InvalidateEvidence, Refresh, Explain, Reserve,
      CommitPlan, AbortPlan, Compact, Shutdown, Recover, PoolEdit;
    assert Unfold(c, Classified(boot, group), Fill());
    FillEdit(c, boot, group);
    assert Classified(boot, group).resources[1 := House2(group)] == map[1 := House2(group)];
  }

  lemma FirstChecked(c: Config, boot: Boot, group: Text)
    requires Roomy(c)
    ensures Check(First()) == Ok && CheckDeclaration(c, Filled(boot, group), First(), false) == Took && Encodable(First())
  {
    hide Authorities.Authorize;
    OwnerAllowed(House0().authority.grants, Capability.DeclareQueues);
    assert QueuesOf(Filled(boot, group).queues, 1) == {};
  }

  lemma DeclareStep(c: Config, boot: Boot, group: Text)
    requires Roomy(c)
    ensures Step(c, Filled(boot, group), Mutate(First(), 0, Good)) == Reply(Declared1(c, boot, group), Took)
  {
    hide ApplyExisting, GrantCapabilities, DeclareResource, DeclareClass, DeclarePool, AddBackend, MarkDead, AdvanceEpoch, InvalidateEvidence,
      Refresh, Explain, Reserve, CommitPlan, AbortPlan, Compact, Shutdown, Recover, Check, CheckDeclaration, Remembered, NewQueue,
      Provenances.Observe, Encodable;
    var s := Filled(boot, group);
    assert Unfold(c, s, Mutate(First(), 0, Good));
    FirstChecked(c, boot, group);
    assert s.journal.records + [BeginAttempt(First())] + [CommitMutation(First())] ==
      Logged(Logged(s, BeginAttempt(First())), CommitMutation(First())).journal.records;
  }

  lemma ExecOne(c: Config, s: State, es: seq<Event>, e: Event)
    ensures Exec(c, s, es + [e]) == Step(c, Exec(c, s, es), e).state
  {
    hide Step;
    assert (es + [e])[..|es|] == es;
  }

  /** The run of the opening calls from an empty journal. */
  lemma OpeningRuns(c: Config, boot: Boot, group: Text)
    requires Roomy(c)
    ensures Exec(c, Start(c, boot), Opening(group)) == Declared1(c, boot, group)
  {
    hide Step, Start, Opened, Housed, Classified, Filled, Declared1, House, Classify, Fill, First;
    var s := Start(c, boot);
    var es := Opening(group);
    StartIsOpened(c, boot);
    HouseStep(c, boot);
    ClassifyStep(c, boot, group);
    FillStep(c, boot, group);
    DeclareStep(c, boot, group);
    assert Exec(c, s, []) == s;
    ExecOne(c, s, [], es[0]);
    ExecOne(c, s, [] + [es[0]], es[1]);
    ExecOne(c, s, [] + [es[0]] + [es[1]], es[2]);
    ExecOne(c, s, [] + [es[0]] + [es[1]] + [es[2]], es[3]);
    assert [] + [es[0]] + [es[1]] + [es[2]] + [es[3]] == es;
  }
}
