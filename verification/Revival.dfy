/** Discredited evidence that counts again, on a run from an empty journal. */
module Revival {
  import opened Status
  import opened Entities
  import opened Mutations
  import opened Work
  import opened Machine
  import opened Run
  import opened Recovery
  import opened Policies
  import opened Scenario
  import opened Losses
  import opened FreshnessLost
  import Authorities
  import Memos

  /** A sample of an empty queue, taken at ten. */
  function Sampling(): Request {
    Request(Attempt(1, 2), IngestOccupancy, 1, 1, 1, 1, Sender(5), OccupancyPayload(Sample(1, 1, 0, 0, 1, 1, 10, Sender(5))))
  }

  /** The run: the queue is declared, sampled and discredited. */
  function Discrediting(): seq<Event> {
    Opening([]) + [Mutate(Sampling(), 10, Good)] + [Discredit(1, 1, 1, 11)]
  }

  function SampledQueue(c: Config): Queue {
    TheQueue(c).(occupancy := Occupancy(true, 0, 0, 10, 1, 1, Sender(5), 1, Fresh, 0))
  }

  /** The house stands and its one queue is this one. */
  predicate Holding(s: State, q: Queue, now: int) {
    Settled(s, []) && s.epoch == 1 && s.queues == map[1 := q] && s.watermark == now
  }

  // ---- the sample -----------------------------------------------------------

  lemma QueueShape(c: Config)
    ensures var q := TheQueue(c);
      && q == NewQueue(First(), 1, 0).(memo := q.memo) && Memos.Find(q.memo, Attempt(1, 2)).None?
  {
    hide EffectOf;
  }

  lemma OwnerMay(required: Capability, flags: Flags)
    requires required in EVERYTHING && !flags.fenced
    ensures Authorities.Authorize(House3([]).authority, 1, required, 1, flags, Declared) == Ok
  {
  }

  lemma SampleAdmitted(c: Config, boot: Boot)
    ensures Check(Sampling()) == Ok && PayloadMatches(Sampling().kind, Sampling().payload)
    ensures Admit(Declared1(c, boot, []), TheQueue(c), Sampling(), false).code == Ok
  {
    hide Authorities.Authorize, TheQueue, House3;
    QueueShape(c);
    HouseKept();
    OwnerMay(IngestOccupancies, Flags(false, false));
  }

  lemma HouseKept()
    ensures House3([]).id == 1 && House3([]).epoch == 1
  {
  }

  lemma SampleWorks(c: Config)
    ensures Perform(c, Env(House3([]), 1, 10, 0), TheQueue(c), Sampling()) == Done(SampledQueue(c), 0)
  {
    hide TheQueue, House3, QueuePolicy, Memos.Find;
    QueueShape(c);
  }

  lemma SampleStep(c: Config, boot: Boot)
    requires c.hasJournal
    ensures var reply := Step(c, Declared1(c, boot, []), Mutate(Sampling(), 10, Good));
      Holding(reply.state, Remembered(c, SampledQueue(c), Sampling(), Ok, false), 10)
  {
    hide ApplyDeclare, DeclareResource, GrantCapabilities, DeclareClass, DeclarePool, AddBackend, MarkDead, AdvanceEpoch, InvalidateEvidence,
      Refresh, Explain, Reserve, CommitPlan, AbortPlan, Compact, Shutdown, Recover, Check, Admit, Perform, Remembered, TheQueue, House3,
      SampledQueue, First, EffectOf;
    var s := Declared1(c, boot, []);
    assert Unfold(c, s, Mutate(Sampling(), 10, Good));
    SampleAdmitted(c, boot);
    SampleWorks(c);
    QueueShape(c);
    NewQueueHome();
  }

  lemma NewQueueHome()
    ensures NewQueue(First(), 1, 0).def.resource == 1
  {
  }

  // ---- discredited, then redeclared -----------------------------------------

  lemma DiscreditStep(c: Config, s: State, q: Queue)
    requires Holding(s, q, 10) && q.def.resource == 1 && q.lifecycle.Declared? && !q.flags.fenced
    ensures Holding(Step(c, s, Discredit(1, 1, 1, 11)).state, Discredited(q), 11)
  {
    hide Apply, DeclareResource, GrantCapabilities, DeclareClass, DeclarePool, AddBackend, MarkDead, AdvanceEpoch, Refresh, Explain, Reserve,
      CommitPlan, AbortPlan, Compact, Shutdown, Recover, House3, Discredited, Authorities.Authorize;
    assert Unfold(c, s, Discredit(1, 1, 1, 11));
    OwnerMay(Admin, q.flags);
  }

  lemma SampledShape(c: Config)
    ensures var q := Remembered(c, SampledQueue(c), Sampling(), Ok, false);
      && q.def == NewQueue(First(), 1, 0).def && q.lifecycle.Declared? && !q.flags.fenced
      && q.occupancy == SampledQueue(c).occupancy
  {
    hide EffectOf, Memos.Remember, TheQueue;
    QueueShape(c);
  }

  lemma DiscreditingRuns(c: Config, boot: Boot)
    requires Roomy(c)
    ensures Holding(Exec(c, Start(c, boot), Discrediting()), Discredited(Remembered(c, SampledQueue(c), Sampling(), Ok, false)), 11)
  {
    hide Step, Start, Exec, Opening, Holding, Remembered, SampledQueue, Discredited;
    OpeningRuns(c, boot, []);
    ExecOne(c, Start(c, boot), Opening([]), Mutate(Sampling(), 10, Good));
    ExecOne(c, Start(c, boot), Opening([]) + [Mutate(Sampling(), 10, Good)], Discredit(1, 1, 1, 11));
    SampleStep(c, boot);
    SampledShape(c);
    DiscreditStep(c, Exec(c, Start(c, boot), Opening([]) + [Mutate(Sampling(), 10, Good)]), Remembered(c, SampledQueue(c), Sampling(), Ok, false));
  }

  /** The law of lost evidence fails without its exception: a sample whose backend
      was discredited counts as fresh again once its class is redeclared, with no
      new sample taken. */
  lemma RevivalExample(c: Config, boot: Boot)
    requires Roomy(c) && c.occupancy == OccupancyPolicy(1_000_000_000, 1_000_000_000, true)
    requires c.policy.classes == [] && c.policy.staleAfter == 1_000_000_000
    ensures var s := Exec(c, Start(c, boot), Discrediting());
      var reply := Step(c, s, Classify([], 11));
      && reply.verdict.Took? && 1 in s.queues && 1 in reply.state.queues && reply.state.watermark == 11
      && FreshnessAt(c, s.queues[1], 11) == StaleBackend && FreshnessAt(c, reply.state.queues[1], 11) == Fresh
      && Overwrites(s, Classify([], 11), reply.state, 1)
  {
    hide Step, Start, Exec, Discrediting, Remembered, SampledQueue, House3, House4, NextClass;
    var s := Exec(c, Start(c, boot), Discrediting());
    DiscreditingRuns(c, boot);
    SampledShape(c);
    AgainStep(c, s, [], 11);
    AgainEdit(c, s, []);
    SampledOccupancy(c);
    RedeclarationRevives(c, s, Classify([], 11), 1);
  }

  lemma SampledOccupancy(c: Config)
    ensures SampledQueue(c).occupancy == Occupancy(true, 0, 0, 10, 1, 1, Sender(5), 1, Fresh, 0)
  {
  }
}
