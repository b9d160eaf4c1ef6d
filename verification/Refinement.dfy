/** Folding the commit records of a run through the replay path rebuilds its
    durable state, through any number of restarts and compactions. */
module Refinement {
  import opened Status
  import opened Entities
  import opened Mutations
  import opened Work
  import opened Machine
  import opened Evolution
  import opened Recovery
  import opened Run
  import opened Steps
  import opened Reach
  import opened GoodRuns
  import opened Twins
  import opened Ledger
  import opened Recalls
  import Names
  import Epochs
  import Deltas
  import Quiescence
  import Counts
  import Snapshots
  import Extremes
  import Soundness
  import Memos
  import Occupancies
  import MemoLog

  // ---- what is asked of a run -----------------------------------------------

  /** How much is to be rebuilt: names and numbering, definitions too, or
      everything durable. */
  datatype View = Naming | Definitions | Everything

  predicate Reshapes(e: Event) {
    e.GrantTo? || e.NewClass? || e.NewPool?
  }

  /** The step committed a mutation. */
  ghost predicate CommitsIn(c: Config, s: State, e: Event) {
    e.Mutate? && Durable(e.request.kind) && Step(c, s, e).verdict.Took?
  }

  function Remembers(queues: map<Id, Queue>): set<Attempt> {
    set i, k | i in queues && 0 <= k < |queues[i].memo| :: queues[i].memo[k].attempt
  }

  function Attempts(order: seq<Request>): set<Attempt> {
    set k | 0 <= k < |order| :: order[k].attempt
  }

  /** The attempts that the snapshot remembers or that were committed behind it. */
  function Known(s: State): set<Attempt> {
    Attempts(Commits(s)) + Remembers(Stored(s).queues)
  }

  /** The journal works and was not rewritten; classes, pools and grants are
      settled before the first commit behind the snapshot; resource records fit
      their format. */
  ghost predicate Settled(c: Config, s: State, e: Event) {
    && GoodIo(e) && !(e.CompactJournal? && Step(c, s, e).verdict.Took?)
    && (Reshapes(e) ==> Commits(s) == []) && Counts.ResourcesStorable(Step(c, s, e).state)
  }

  /** For definitions, moreover, reasons fit their bound and no attempt identity
      is committed twice; for everything, no queue is committed to quiescence that
      was not quiesced. */
  ghost predicate Steady(c: Config, v: View, s: State, e: Event) {
    && Settled(c, s, e)
    && (!v.Naming? && e.Mutate? ==> Recordable(e.request))
    && (!v.Naming? && CommitsIn(c, s, e) ==> e.request.kind.DeclareQueue? || e.request.attempt !in Known(s))
    && (v.Everything? && CommitsIn(c, s, e) ==> QuiescesAgain(s, e.request))
  }

  /** Every queue can remember the attempts its snapshot remembers and those of
      the commits and markers behind it. */
  predicate Room(c: Config, s: State) {
    RoomFor(c, s.queues.Keys, Stored(s).queues, Commits(s), s.names)
  }

  /** A steady call, a compaction of records that fit their formats, or a restart
      whose replay is journalled; for more than names, memos have room. */
  ghost predicate Tame(c: Config, v: View, s: State, e: Event) {
    || Steady(c, v, s, e)
    || (e.CompactJournal? && Snapshots.Storable(s))
    || (e.Restart? && GoodFeed(e.feed) && (v.Naming? || Room(c, s)))
  }

  ghost predicate TameRun(c: Config, v: View, s: State, es: seq<Event>) {
    es == [] || (TameRun(c, v, s, es[..|es| - 1]) && Tame(c, v, Exec(c, s, es[..|es| - 1]), es[|es| - 1]))
  }

  /** The journal reads back as the state, with nothing to replay. */
  predicate Checkpoint(v: View, s: State) {
    && Flushed(s) && Commits(s) == [] && (v.Everything? ==> FenceExact(s))
    && SameQueues(s.queues, Stored(s).queues) && Agrees(s.resources, Stored(s).resources)
  }

  // ---- one settled step -----------------------------------------------------

  lemma SameHeader(c: Config, s: State, e: Event, next: State)
    requires JournalStep(c, s, e, next)
    ensures next.journal.headerEpoch == s.journal.headerEpoch
  {
    hide Snapshot, RecordStep;
  }

  /** What a settled step does to the journal. */
  lemma SettledStep(c: Config, s: State, e: Event)
    requires c.hasJournal && Inv(c, s) && Settled(c, s, e) && Flushed(s) && Agrees(s.resources, Stored(s).resources)
    ensures var next := Step(c, s, e).state;
      && Flushed(next) && Agrees(next.resources, Stored(next).resources) && Stored(next).queues == Stored(s).queues
      && OrderStep(s, e, Step(c, s, e))
  {
    hide Step, Inv, Counts.ResourcesStorable, Commits, QueueSteps, ResourceSteps, CoreStep, JournalStep, Counted, Writes, Flushed, OrderStep, Stored,
      Agrees;
    Epochs.InvCounted(c, s);
    Deltas.StepDelta(c, s, e);
    StepWrites(c, s, e);
    SameHeader(c, s, e, Step(c, s, e).state);
    StoredStep(c, s, e, Step(c, s, e), Stored(s).queues);
    WritesOrder(c, s, e, Step(c, s, e));
  }

  lemma OrderGrows(s: State, e: Event, reply: Reply)
    requires OrderStep(s, e, reply)
    ensures |Commits(s)| <= |Commits(reply.state)|
  {
    hide Commits, Durable, Decodable;
  }

  lemma UnreshapedAgrees(s: State, e: Event, next: State)
    requires ResourceSteps(s, e, next) && !Reshapes(e)
    ensures Agrees(s.resources, next.resources)
  {
    hide BackendsStep;
    forall i | i in s.resources ensures i in next.resources && SameTopology(s.resources[i], next.resources[i]) {
      assert ResourceStep(s, e, next, i);
    }
  }

  // ---- faithful journals ----------------------------------------------------

  /** A state in which replay of this journal may start, now or later. */
  ghost predicate Suits(c: Config, s: State, b: State, epoch: nat) {
    && Replayable(c, b, epoch) && b.queues == Stored(s).queues && Names.Indexed(c, b) && FenceExact(b) && !b.shuttingDown
    && (Commits(s) != [] ==> Agrees(s.resources, b.resources))
  }

  /** What the memos of a replayed state hold. */
  predicate Rebuilt(c: Config, s: State, t: State) {
    && !t.shuttingDown && MemosWithin(t, Stored(s).queues, Commits(s), s.names)
    && (Room(c, s) ==> RecallsAll(t, Commits(s)))
  }

  /** Replay from b ends in g. */
  ghost predicate Replays(c: Config, s: State, g: State, b: State, feed: seq<Moment>) {
    var t := Replay(c, b, Commits(s), feed);
    Mirrors(true, g, t) && Rebuilt(c, s, t)
  }

  /** The journal is faithful to the state: wherever replay starts, and whatever
      the clock then says, it ends in g up to what is not durable, and g mirrors
      the state. */
  ghost predicate FaithfulTo(c: Config, exact: bool, s: State, g: State) {
    && Flushed(s) && Agrees(s.resources, Stored(s).resources) && (exact ==> FenceExact(s)) && Mirrors(exact, s, g)
    && forall b, epoch, feed :: Suits(c, s, b, epoch) && GoodFeed(feed) ==> Replays(c, s, g, b, feed)
  }

  /** A step before, the same states suited. */
  lemma SuitsBefore(c: Config, s: State, e: Event, b: State, epoch: nat)
    requires c.hasJournal && Inv(c, s) && Settled(c, s, e) && Flushed(s) && Agrees(s.resources, Stored(s).resources)
    requires Suits(c, Step(c, s, e).state, b, epoch)
    ensures Suits(c, s, b, epoch) && (Commits(Step(c, s, e).state) != [] && !Reshapes(e) ==> Agrees(s.resources, b.resources))
  {
    hide Step, Inv, Counts.ResourcesStorable, Commits, QueueSteps, ResourceSteps, CoreStep, JournalStep, Counted, Flushed, OrderStep, Stored,
      Agrees, Replayable, Names.Indexed, FenceExact;
    SettledStep(c, s, e);
    OrderGrows(s, e, Step(c, s, e));
    if !Reshapes(e) {
      Epochs.InvCounted(c, s);
      Deltas.StepDelta(c, s, e);
      UnreshapedAgrees(s, e, Step(c, s, e).state);
      if Commits(Step(c, s, e).state) != [] {
        AgreesChain(s.resources, Step(c, s, e).state.resources, b.resources);
      }
    }
  }

  lemma InvRecords(c: Config, s: State)
    requires Inv(c, s) && c.hasJournal && Flushed(s)
    ensures RecordsSound(c, s.journal.records, s.epoch) && s.epoch <= NextEpoch(Stored(s).epoch)
  {
    hide Counted, AllSound, EpochsAgree, RecordsSound, Load;
    assert s.journal.records[..|s.journal.records|] == s.journal.records;
  }

  lemma StoredSound(c: Config, s: State, boot: Boot)
    requires Inv(c, s) && c.hasJournal && Flushed(s)
    ensures LoadedSound(c, Stored(s), NextEpoch(Stored(s).epoch)) && Replayable(c, Base(Stored(s), s.journal, boot), NextEpoch(Stored(s).epoch))
  {
    hide Inv, Flushed, RecordsSound, LoadedSound, Replayable, Base, Load;
    InvRecords(c, s);
    var epoch := NextEpoch(Stored(s).epoch);
    RecordsSoundLater(c, s.journal.records, s.epoch, epoch);
    LoadSound(c, s.journal.records, s.journal.headerEpoch, epoch);
    BaseReplayable(c, Stored(s), s.journal, boot);
  }

  lemma StoredGood(c: Config, s: State)
    requires Names.NameInv(c, s)
    ensures Names.Good(c, Stored(s).queues)
  {
    hide Names.Good, Names.Indexed, Load, Names.StoredQueues;
    var records := s.journal.records;
    Names.LoadStored(records, s.journal.headerEpoch);
    assert records[..|records|] == records;
  }

  lemma GreatestIsExact(b: State)
    requires b.ids.fence == Extremes.Greatest(Tokens(b.queues))
    ensures FenceExact(b)
  {
  }

  /** What recovery starts replay from suits. */
  lemma BaseSuits(c: Config, s: State, boot: Boot)
    requires c.hasJournal && Inv(c, s) && Names.NameInv(c, s) && Flushed(s) && Agrees(s.resources, Stored(s).resources)
    ensures Suits(c, s, Base(Stored(s), s.journal, boot), NextEpoch(Stored(s).epoch))
  {
    hide Inv, Names.NameInv, Flushed, LoadedSound, Replayable, Base, Stored, Agrees, Names.Good, Names.Indexed, FenceExact, Commits;
    var l := Stored(s);
    StoredSound(c, s, boot);
    StoredGood(c, s);
    Names.BaseIndexed(c, l, s.journal, boot);
    BaseReads(l, s.journal, boot);
    GreatestIsExact(Base(l, s.journal, boot));
    SameHousesAgree(l.resources, Base(l, s.journal, boot).resources);
    AgreesChain(s.resources, l.resources, Base(l, s.journal, boot).resources);
  }

  /** Replay from a suitable state keeps the invariant and quiesces nothing. */
  lemma ReplayQuiet(c: Config, s: State, b: State, feed: seq<Moment>, epoch: nat)
    requires c.hasJournal && Inv(c, s) && Flushed(s) && Suits(c, s, b, epoch)
    ensures var t := Replay(c, b, Commits(s), feed); Replayable(c, t, epoch) && Quiescence.NoClaims(t.queues)
  {
    hide Inv, Flushed, LoadedSound, Replayable, Replay, Base, Load, Agrees, Names.Indexed, FenceExact, Quiescence.NoClaims, Quiescence.SubmitsNothing;
    StoredSound(c, s, Boot(0, 0));
    Quiescence.LoadNoClaims(s.journal.records, s.journal.headerEpoch);
    Quiescence.LoadedSubmitsNothing(c, Stored(s), NextEpoch(Stored(s).epoch));
    Quiescence.ReplayNoClaims(c, b, Commits(s), feed, epoch);
    ReplayReplayable(c, b, Commits(s), feed, epoch);
  }

  // ---- checkpoints are faithful ---------------------------------------------

  lemma SameIndexes(c: Config, s: State, next: State)
    requires Names.Indexed(c, s) && Names.Indexed(c, next) && Names.SameKeys(s.queues, next.queues)
    ensures next.names == s.names && next.ids.queue == s.ids.queue
  {
    Snapshots.SameIndex(c, s, next);
  }

  lemma SameIsMirror(exact: bool, queues: map<Id, Queue>, others: map<Id, Queue>)
    requires SameQueues(queues, others)
    ensures MirrorQueues(exact, queues, others)
  {
    hide SameDurable, SameShape;
    forall i | i in queues ensures Mirror(exact, queues[i], others[i]) {
      DurableIsMirror(exact, queues[i], others[i]);
    }
  }

  lemma DurableIsMirror(exact: bool, q: Queue, p: Queue)
    requires SameDurable(q, p)
    ensures Mirror(exact, q, p)
  {
  }

  lemma FencesEqual(s: State, t: State)
    requires FenceExact(s) && FenceExact(t) && SameQueues(s.queues, t.queues)
    ensures t.ids.fence == s.ids.fence
  {
    hide SameQueues, Tokens;
    SameTokens(s.queues, t.queues);
    Extremes.GreatestUnique(s.ids.fence, Tokens(s.queues));
    Extremes.GreatestUnique(t.ids.fence, Tokens(t.queues));
  }

  lemma SelfSame(queues: map<Id, Queue>)
    ensures SameQueues(queues, queues)
  {
  }

  lemma IndexedMirrors(c: Config, exact: bool, s: State, t: State)
    requires Names.Indexed(c, s) && Names.Indexed(c, t) && SameQueues(s.queues, t.queues) && (exact ==> FenceExact(s) && FenceExact(t))
    ensures Mirrors(exact, s, t)
  {
    hide Names.Indexed, SameQueues, FenceExact, MirrorQueues, Names.SameKeys, Names.PartOf;
    SameIsMirror(exact, s.queues, t.queues);
    MirrorKeys(exact, s.queues, t.queues);
    SameIndexes(c, s, t);
    if exact {
      FencesEqual(s, t);
    }
  }

  lemma SnapshotMemos(c: Config, s: State, b: State)
    requires b.queues == Stored(s).queues && !b.shuttingDown && Commits(s) == []
    ensures Rebuilt(c, s, b)
  {
    hide Load, Concerns;
  }

  lemma CheckpointFaithful(c: Config, v: View, s: State) returns (g: State)
    requires c.hasJournal && Inv(c, s) && Names.NameInv(c, s) && Checkpoint(v, s)
    ensures FaithfulTo(c, v.Everything?, s, g)
  {
    hide Inv, Names.Indexed, Names.RecordsGood, Flushed, Replayable, Base, Stored, Agrees, FenceExact, Mirrors, Rebuilt, SameQueues, Commits;
    g := Base(Stored(s), s.journal, Boot(0, 0));
    BaseSuits(c, s, Boot(0, 0));
    IndexedMirrors(c, v.Everything?, s, g);
    forall b, epoch, feed | Suits(c, s, b, epoch) && GoodFeed(feed) ensures Replays(c, s, g, b, feed) {
      assert Replay(c, b, [], feed) == b;
      SelfSame(b.queues);
      IndexedMirrors(c, true, g, b);
      SnapshotMemos(c, s, b);
    }
  }

  // ---- steps that commit nothing --------------------------------------------

  lemma QuietUnmoved(c: Config, v: View, s: State, e: Event)
    requires c.hasJournal && Counted(s) && !v.Naming? && Steady(c, v, s, e) && !CommitsIn(c, s, e)
    ensures Mirrors(true, s, Step(c, s, e).state)
  {
    hide Step, Apply, Counted, Known, Commits, Durable, Recordable, Counts.ResourcesStorable, Mirrors, QuiescesAgain;
    if e.Mutate? {
      MutateIsApply(c, s, e);
      assert e.io == Good;
      MutateUnmoved(c, s, e.request, e.clock);
    } else {
      OtherUnmoved(c, s, e);
    }
  }

  lemma SteadyFence(c: Config, v: View, s: State, e: Event)
    requires c.hasJournal && Counted(s) && v.Everything? && Steady(c, v, s, e) && FenceExact(s)
    ensures FenceExact(Step(c, s, e).state)
  {
    hide Step, Counted, Known, Commits, Durable, Recordable, Counts.ResourcesStorable, QuiescesAgain, FenceExact;
    StepFence(c, s, e);
  }

  /** The same journal and the same names ask the same of a memo. */
  lemma RebuiltSame(c: Config, s: State, next: State, t: State)
    requires Rebuilt(c, s, t) && Commits(next) == Commits(s) && Stored(next).queues == Stored(s).queues && Mirrors(true, s, next)
    ensures Rebuilt(c, next, t)
  {
    hide Stored, Commits, RecallsAll, MemosWithin, SameDurable;
  }

  lemma QuietFaithful(c: Config, v: View, s: State, e: Event, g: State)
    requires c.hasJournal && Inv(c, s) && !v.Naming? && Steady(c, v, s, e) && FaithfulTo(c, v.Everything?, s, g)
    requires !CommitsIn(c, s, e) && Commits(Step(c, s, e).state) == Commits(s)
    ensures FaithfulTo(c, v.Everything?, Step(c, s, e).state, g)
  {
    hide Step, Inv, Steady, Counted, Commits, Flushed, OrderStep, Stored, Agrees, Suits, FenceExact, Mirrors, Rebuilt, CommitsIn, EpochsAgree;
    var next := Step(c, s, e).state;
    assert Settled(c, s, e) by {
      SteadySettled(c, v, s, e);
    }
    Epochs.InvCounted(c, s);
    SettledStep(c, s, e);
    QuietUnmoved(c, v, s, e);
    MirrorsOn(v.Everything?, s, next, g);
    if v.Everything? {
      SteadyFence(c, v, s, e);
    }
    forall b, epoch, feed | Suits(c, next, b, epoch) && GoodFeed(feed) ensures Replays(c, next, g, b, feed) {
      SuitsBefore(c, s, e, b, epoch);
      RebuiltSame(c, s, next, Replay(c, b, Commits(s), feed));
    }
  }

  lemma SteadySettled(c: Config, v: View, s: State, e: Event)
    requires Steady(c, v, s, e)
    ensures Settled(c, s, e)
  {
    hide Settled, Known, Recordable, QuiescesAgain, Step, Durable;
  }

  // ---- one more request to replay -------------------------------------------

  /** One more request in the journal. */
  predicate Longer(s: State, next: State, r: Request) {
    Commits(next) == Commits(s) + [r] && Stored(next).queues == Stored(s).queues
  }

  lemma ReplayLonger(c: Config, s: State, next: State, r: Request, b: State, feed: seq<Moment>)
    requires Longer(s, next, r)
    ensures var m := MomentAt(feed, |Commits(s)|);
      Replay(c, b, Commits(next), feed) == Apply(c, Replay(c, b, Commits(s), feed), r, m.clock, m.io, true).state
  {
    hide Replay, Apply, Commits, Stored;
    ReplayOne(c, b, Commits(s), r, feed);
  }

  /** A replayed declaration is taken; replayed work finds its queue. */
  predicate Arrives(c: Config, t: State, r: Request, m: Moment) {
    if r.kind.DeclareQueue? then Apply(c, t, r, m.clock, m.io, true).verdict.Took? else r.queue in t.queues
  }

  /** What the memos hold after one more request that reached its queue. */
  lemma RebuiltLonger(c: Config, s: State, next: State, r: Request, t: State, m: Moment, epoch: nat)
    requires Rebuilt(c, s, t) && Replayable(c, t, epoch) && Longer(s, next, r) && t.names == s.names
    requires var t' := Apply(c, t, r, m.clock, m.io, true).state; t'.names == next.names && t'.queues.Keys == next.queues.Keys
    requires s.queues.Keys <= next.queues.Keys && NamesGrow(s.names, next.names)
    requires Durable(r.kind) ==> Check(r).Ok? && Arrives(c, t, r, m)
    ensures Rebuilt(c, next, Apply(c, t, r, m.clock, m.io, true).state)
  {
    hide Apply, Commits, Stored, Replayable, MemosWithin, Recalled, RoomFor, Check, Durable, NamesGrow, Heard, Journalled;
    var t' := Apply(c, t, r, m.clock, m.io, true).state;
    var queues, order := Stored(s).queues, Commits(s);
    ReplayableCounts(c, t, epoch);
    ApplyRest(c, t, r, m.clock, m.io, true);
    RosterStep(c, t, r, m, queues, order);
    if Room(c, next) {
      RoomyBefore(c, s.queues.Keys, next.queues.Keys, queues, order, r, s.names, next.names);
      forall k | 0 <= k < |order| && Durable(order[k].kind) ensures Recalled(t', order[k]) {
        RecallsOn(c, t, r, m, queues, order, order[k], epoch);
      }
      if Durable(r.kind) {
        RecallsNew(c, t, r, m, queues, order, epoch);
      }
    }
  }

  // ---- markers --------------------------------------------------------------

  lemma MarkerIsNotDurable(s: State, e: Event, r: Request)
    requires e.CommitApply? || e.AbortApply?
    requires r == if e.CommitApply? then AckRequest(e.plan, e.applied, s.epoch, e.sender) else AbortMarker(e.plan)
    ensures !Durable(r.kind) && Recordable(r)
  {
  }

  /** The marker a step commits, if it commits no mutation. */
  lemma MarkerOrder(c: Config, s: State, e: Event) returns (r: Request)
    requires OrderStep(s, e, Step(c, s, e)) && !CommitsIn(c, s, e) && Commits(Step(c, s, e).state) != Commits(s)
    ensures Commits(Step(c, s, e).state) == Commits(s) + [r] && !Durable(r.kind) && Recordable(r)
  {
    hide Step, Commits, Durable, Recordable, Decodable;
    r := if e.CommitApply? then AckRequest(e.plan, e.applied, s.epoch, e.sender) else AbortMarker(e.plan);
    MarkerIsNotDurable(s, e, r);
  }

  lemma MarkerRebuilds(c: Config, s: State, next: State, r: Request, g: State, b: State, feed: seq<Moment>, epoch: nat)
    requires c.hasJournal && Inv(c, s) && Flushed(s) && GoodFeed(feed) && Suits(c, s, b, epoch) && Replays(c, s, g, b, feed)
    requires Longer(s, next, r) && !Durable(r.kind) && Recordable(r) && Mirrors(true, s, next) && g.names == s.names && g.queues.Keys == s.queues.Keys
    ensures Replays(c, next, g, b, feed)
  {
    hide Inv, Flushed, Suits, Apply, Replay, Commits, Stored, Rebuilt, Longer, Replayable, SameDurable, Recordable, Durable, Quiescence.NoClaims, Counted,
      EpochsAgree;
    var t, m := Replay(c, b, Commits(s), feed), MomentAt(feed, |Commits(s)|);
    ReplayQuiet(c, s, b, feed, epoch);
    ReplayableCounts(c, t, epoch);
    MarkerUnmoved(c, t, r, m);
    ReplayLonger(c, s, next, r, b, feed);
    MirrorsChain(true, g, t, Apply(c, t, r, m.clock, m.io, true).state);
    NamesStay(s.names);
    RebuiltLonger(c, s, next, r, t, m, epoch);
  }

  lemma NamesStay(names: map<NameKey, Id>)
    ensures NamesGrow(names, names)
  {
  }

  lemma MarkerFaithful(c: Config, v: View, s: State, e: Event, g: State)
    requires c.hasJournal && Inv(c, s) && !v.Naming? && Steady(c, v, s, e) && FaithfulTo(c, v.Everything?, s, g)
    requires !CommitsIn(c, s, e) && Commits(Step(c, s, e).state) != Commits(s)
    ensures FaithfulTo(c, v.Everything?, Step(c, s, e).state, g)
  {
    hide Step, Inv, Steady, Counted, Commits, Flushed, OrderStep, Stored, Agrees, Suits, FenceExact, Rebuilt, CommitsIn, EpochsAgree, Replays,
      MirrorQueues;
    var next := Step(c, s, e).state;
    SteadySettled(c, v, s, e);
    Epochs.InvCounted(c, s);
    SettledStep(c, s, e);
    QuietUnmoved(c, v, s, e);
    MirrorsOn(v.Everything?, s, next, g);
    if v.Everything? {
      SteadyFence(c, v, s, e);
    }
    var r := MarkerOrder(c, s, e);
    MirrorIds(v.Everything?, s.queues, g.queues);
    forall b, epoch, feed | Suits(c, next, b, epoch) && GoodFeed(feed) ensures Replays(c, next, g, b, feed) {
      SuitsBefore(c, s, e, b, epoch);
      MarkerRebuilds(c, s, next, r, g, b, feed, epoch);
    }
  }

  lemma MirrorIds(exact: bool, queues: map<Id, Queue>, others: map<Id, Queue>)
    requires MirrorQueues(exact, queues, others)
    ensures others.Keys == queues.Keys
  {
    hide Mirror;
  }

  // ---- commits --------------------------------------------------------------

  lemma CommitOrder(c: Config, v: View, s: State, e: Event)
    requires OrderStep(s, e, Step(c, s, e)) && CommitsIn(c, s, e) && !v.Naming? && Steady(c, v, s, e)
    ensures e.Mutate? && Recordable(e.request) && Decodable(e.request) && Commits(Step(c, s, e).state) == Commits(s) + [e.request]
  {
    hide Step, Apply, Commits, Durable, Decodable, Recordable, Check, PayloadMatches, QuiescesAgain, Known, Counts.ResourcesStorable;
    MutateIsApply(c, s, e);
    TookChecked(c, s, e.request, e.clock, e.io, false);
    RecordableCodes(e.request);
  }

  lemma UnknownUnheld(s: State, i: Id, memo: seq<Memo>, a: Attempt)
    requires MemoWithin(memo, Roster(Stored(s).queues, Commits(s), s.names, i)) && a !in Known(s)
    ensures Memos.Find(memo, a).None?
  {
    hide Stored, Commits, Concerns;
    MemoLog.FindSpec(memo, a);
    forall k | 0 <= k < |memo| ensures memo[k].attempt != a {
      assert memo[k].attempt in Roster(Stored(s).queues, Commits(s), s.names, i);
    }
  }

  /** The live state and one replay, before and after a commit. */
  ghost predicate Pair(c: Config, exact: bool, s: State, t: State, epoch: nat) {
    && Replayable(c, t, epoch) && Quiescence.NoClaims(t.queues) && Rebuilt(c, s, t) && Mirrors(exact, s, t) && Agrees(s.resources, t.resources)
  }

  lemma ReplayPairs(c: Config, exact: bool, s: State, g: State, b: State, feed: seq<Moment>, epoch: nat)
    requires c.hasJournal && Inv(c, s) && FaithfulTo(c, exact, s, g) && Suits(c, s, b, epoch) && GoodFeed(feed) && Agrees(s.resources, b.resources)
    ensures var t := Replay(c, b, Commits(s), feed); Pair(c, exact, s, t, epoch) && Mirrors(true, g, t)
  {
    hide Inv, Flushed, Suits, Replay, Commits, Stored, Rebuilt, Replayable, Mirrors, Quiescence.NoClaims, Agrees, FenceExact;
    var t := Replay(c, b, Commits(s), feed);
    assert Replays(c, s, g, b, feed);
    ReplayQuiet(c, s, b, feed, epoch);
    MirrorsChain(exact, s, g, t);
    ReplayTopology(c, b, Commits(s), feed);
    SameHousesAgree(b.resources, t.resources);
    AgreesChain(s.resources, b.resources, t.resources);
  }

  lemma PairParts(c: Config, exact: bool, s: State, t: State, epoch: nat, i: Id)
    requires Pair(c, exact, s, t, epoch)
    ensures Counted(t) && EpochsAgree(t) && !t.shuttingDown && t.queues.Keys == s.queues.Keys && t.names == s.names
    ensures i in t.queues ==>
      && !Quiescence.Claims(t.queues[i].drain) && Soundness.Coherent(t.queues[i])
      && MemoWithin(t.queues[i].memo, Roster(Stored(s).queues, Commits(s), s.names, i))
  {
    hide Replayable, Counted, EpochsAgree, Mirror, Agrees, Stored, Commits, MemoWithin, Roster, Room, RecallsAll, Quiescence.Claims, Soundness.Coherent;
    ReplayableCounts(c, t, epoch);
    if i in t.queues {
      ReplayableMemo(c, t, epoch, i);
    }
  }

  /** A committed mutation is replayed on the mirror: taken if it is a
      declaration, admitted if it is work. */
  lemma CommitMirrors(c: Config, v: View, s: State, e: Event, t: State, m: Moment, epoch: nat)
    requires c.hasJournal && Counted(s) && !v.Naming? && Steady(c, v, s, e) && CommitsIn(c, s, e) && Recordable(e.request) && m.io.Good?
    requires Pair(c, v.Everything?, s, t, epoch)
    ensures var next, reply := Step(c, s, e).state, Apply(c, t, e.request, m.clock, m.io, true);
      && Mirrors(v.Everything?, next, reply.state) && Check(e.request).Ok? && Arrives(c, t, e.request, m)
      && (!e.request.kind.DeclareQueue? ==> Admitted(c, t, t.queues[e.request.queue], e.request, true))
  {
    hide Step, Apply, Pair, Counted, EpochsAgree, Known, Durable, Recordable, Settled, Mirror, Agrees, Check, Admitted, QuiescesAgain, Memos.Find,
      MemoWithin, Roster, Soundness.Coherent, Quiescence.Claims, Names.SameKeys, Names.PartOf, PayloadMatches;
    var r := e.request;
    SteadyIo(c, v, s, e);
    MutateIsApply(c, s, e);
    PairParts(c, v.Everything?, s, t, epoch, r.queue);
    PairMirror(c, v.Everything?, s, t, epoch);
    TookChecked(c, s, r, e.clock, Good, false);
    if r.kind.DeclareQueue? {
      MirrorKeys(v.Everything?, s.queues, t.queues);
      DeclareReplays(c, s, t, r, e.clock, m);
      DeclaredMirrors(c, v.Everything?, s, false, t, r, e.clock, Good, m);
    } else {
      if r.queue in t.queues {
        UnknownUnheld(s, r.queue, t.queues[r.queue].memo, r.attempt);
      }
      WorkMirrors(c, v.Everything?, s, t, r, e.clock, m);
    }
  }

  lemma SteadyIo(c: Config, v: View, s: State, e: Event)
    requires Steady(c, v, s, e) && CommitsIn(c, s, e)
    ensures e.Mutate? && e.io == Good
  {
    hide Step, Known, Durable, Recordable, QuiescesAgain, Counts.ResourcesStorable, Commits;
  }

  lemma PairMirror(c: Config, exact: bool, s: State, t: State, epoch: nat)
    requires Pair(c, exact, s, t, epoch)
    ensures Mirrors(exact, s, t) && Agrees(s.resources, t.resources) && Rebuilt(c, s, t) && Replayable(c, t, epoch)
  {
    hide Mirrors, Agrees, Rebuilt, Replayable;
  }

  /** Two replays of a committed mutation stay alike. */
  lemma CommitAlike(c: Config, exact: bool, s: State, t: State, t': State, r: Request, m: Moment, m': Moment, epoch: nat, epoch': nat)
    requires c.hasJournal && m.io.Good? && m'.io.Good? && Recordable(r) && Durable(r.kind) && Check(r).Ok?
    requires Pair(c, exact, s, t, epoch) && Pair(c, exact, s, t', epoch') && Mirrors(true, t, t')
    requires Arrives(c, t, r, m) && Arrives(c, t', r, m')
    requires !r.kind.DeclareQueue? ==> Admitted(c, t, t.queues[r.queue], r, true) && Admitted(c, t', t'.queues[r.queue], r, true)
    requires !r.kind.DeclareQueue? ==> t.queues[r.queue].def.resource in s.resources
    ensures Mirrors(true, Apply(c, t, r, m.clock, m.io, true).state, Apply(c, t', r, m'.clock, m'.io, true).state)
  {
    hide Apply, Pair, Counted, EpochsAgree, Durable, Recordable, Mirrors, Agrees, Check, Admitted, MemoWithin, Roster, Soundness.Coherent, Quiescence.Claims;
    PairParts(c, exact, s, t, epoch, r.queue);
    PairParts(c, exact, s, t', epoch', r.queue);
    PairMirror(c, exact, s, t, epoch);
    PairMirror(c, exact, s, t', epoch');
    if r.kind.DeclareQueue? {
      DeclaredMirrors(c, true, t, true, t', r, m.clock, m.io, m');
    } else {
      var home := t.queues[r.queue].def.resource;
      AgreedClasses(s, t, home);
      AgreedClasses(s, t', home);
      WorkAlike(c, t, t', r, m, m');
    }
  }

  /** The resource of a queue that was worked on live. */
  lemma CommitHome(c: Config, v: View, s: State, e: Event, t: State, epoch: nat)
    requires c.hasJournal && Counted(s) && CommitsIn(c, s, e) && Steady(c, v, s, e) && Recordable(e.request) && !e.request.kind.DeclareQueue?
    requires Pair(c, v.Everything?, s, t, epoch) && e.request.queue in t.queues
    ensures t.queues[e.request.queue].def.resource in s.resources
  {
    hide Step, Apply, Counted, Known, Durable, Recordable, Settled, Agrees, Replayable, Rebuilt, Admitted, Mirror, Quiescence.NoClaims, Perform, Check,
      PayloadMatches, QuiescesAgain;
    SteadyIo(c, v, s, e);
    MutateIsApply(c, s, e);
    TakenTurn(c, s, e.request, e.clock);
    MirrorResource(v.Everything?, s.queues[e.request.queue], t.queues[e.request.queue]);
  }

  /** One commit, one replay of the journal with it. */
  lemma CommitRebuilds(c: Config, v: View, s: State, e: Event, g: State, b: State, feed: seq<Moment>, epoch: nat)
    requires c.hasJournal && Inv(c, s) && !v.Naming? && Steady(c, v, s, e) && CommitsIn(c, s, e) && FaithfulTo(c, v.Everything?, s, g)
    requires e.Mutate? && Longer(s, Step(c, s, e).state, e.request) && Recordable(e.request)
    requires Suits(c, Step(c, s, e).state, b, epoch) && GoodFeed(feed)
    ensures var next := Step(c, s, e).state;
      var t, t' := Replay(c, b, Commits(s), feed), Replay(c, b, Commits(next), feed);
      && Pair(c, v.Everything?, s, t, epoch) && Mirrors(true, g, t) && Mirrors(v.Everything?, next, t') && Rebuilt(c, next, t')
  {
    hide Step, Inv, Steady, Counted, Flushed, Stored, Commits, Agrees, FenceExact, Rebuilt, CommitsIn, EpochsAgree, Suits, Apply, Replay, Replayable,
      Quiescence.NoClaims, Recordable, Check, Admitted, Mirror, Durable;
    var next, r := Step(c, s, e).state, e.request;
    SteadySettled(c, v, s, e);
    Epochs.InvCounted(c, s);
    CommitShape(c, s, e);
    SuitsBefore(c, s, e, b, epoch);
    ReplayPairs(c, v.Everything?, s, g, b, feed, epoch);
    var t, m := Replay(c, b, Commits(s), feed), MomentAt(feed, |Commits(s)|);
    CommitMirrors(c, v, s, e, t, m, epoch);
    ReplayLonger(c, s, next, r, b, feed);
    CommitKeys(c, s, e);
    RebuiltLonger(c, s, next, r, t, m, epoch);
  }

  lemma CommitShape(c: Config, s: State, e: Event)
    requires CommitsIn(c, s, e)
    ensures e.Mutate? && Durable(e.request.kind) && !Reshapes(e)
  {
    hide Step, Durable;
  }

  lemma CommitKeys(c: Config, s: State, e: Event)
    requires Counted(s) && CommitsIn(c, s, e)
    ensures s.queues.Keys <= Step(c, s, e).state.queues.Keys && NamesGrow(s.names, Step(c, s, e).state.names)
  {
    hide Step, Apply, Counted, Handled, Installed, HasTarget, Durable;
    MutateIsApply(c, s, e);
    CountedNumbered(s);
    ApplyQueues(c, s, e.request, e.clock, e.io, false);
    Names.ApplyNames(c, s, e.request, e.clock, e.io, false);
    AfterNames(s, e.request, Step(c, s, e));
    forall i | i in s.queues ensures i in Step(c, s, e).state.queues {
      HandledPresent(c, s, e.request, false, Step(c, s, e), i);
    }
  }

  lemma CommitFaithful(c: Config, v: View, s: State, e: Event, g: State) returns (g': State)
    requires c.hasJournal && Inv(c, s) && Names.NameInv(c, s) && !v.Naming? && Steady(c, v, s, e) && CommitsIn(c, s, e) && FaithfulTo(c, v.Everything?, s, g)
    ensures FaithfulTo(c, v.Everything?, Step(c, s, e).state, g')
  {
    hide Step, Inv, Names.NameInv, Steady, Counted, Flushed, OrderStep, Stored, Agrees, Suits, FenceExact, Rebuilt, CommitsIn, EpochsAgree, Commits,
      Recordable, Replay, Mirrors, Base, Pair, Decodable;
    var next := Step(c, s, e).state;
    SteadySettled(c, v, s, e);
    Epochs.InvCounted(c, s);
    SettledStep(c, s, e);
    CommitOrder(c, v, s, e);
    StepInv(c, s, e);
    StepNames(c, s, e);
    if v.Everything? {
      SteadyFence(c, v, s, e);
    }
    var b0, epoch0 := Base(Stored(next), next.journal, Boot(0, 0)), NextEpoch(Stored(next).epoch);
    BaseSuits(c, next, Boot(0, 0));
    CommitRebuilds(c, v, s, e, g, b0, [], epoch0);
    g' := Replay(c, b0, Commits(next), []);
    forall b, epoch, feed | Suits(c, next, b, epoch) && GoodFeed(feed) ensures Replays(c, next, g', b, feed) {
      CommitRebuilds(c, v, s, e, g, b, feed, epoch);
      CommitReplaysAlike(c, v, s, e, g, b0, epoch0, b, feed, epoch);
    }
  }

  lemma StepNames(c: Config, s: State, e: Event)
    requires Inv(c, s) && Names.NameInv(c, s) && !e.Restart?
    ensures Names.NameInv(c, Step(c, s, e).state)
  {
    hide Step, Inv, Names.NameInv;
    var es := [e];
    assert es[..0] == [];
    assert Exec(c, s, es) == Step(c, s, es[0]).state;
    Names.ExecNames(c, s, es);
  }

  lemma CommitReplaysAlike(c: Config, v: View, s: State, e: Event, g: State, b0: State, epoch0: nat, b: State, feed: seq<Moment>, epoch: nat)
    requires c.hasJournal && Counted(s) && !v.Naming? && Steady(c, v, s, e) && CommitsIn(c, s, e) && GoodFeed(feed)
    requires e.Mutate? && Longer(s, Step(c, s, e).state, e.request) && Recordable(e.request)
    requires var t0, t := Replay(c, b0, Commits(s), []), Replay(c, b, Commits(s), feed);
      && Pair(c, v.Everything?, s, t0, epoch0) && Pair(c, v.Everything?, s, t, epoch) && Mirrors(true, g, t0) && Mirrors(true, g, t)
    ensures var next := Step(c, s, e).state; Mirrors(true, Replay(c, b0, Commits(next), []), Replay(c, b, Commits(next), feed))
  {
    hide Step, Steady, Counted, Stored, Commits, CommitsIn, Replay, Pair, Recordable, Longer, Mirrors, Apply, Admitted, Check, Durable;
    var next, r := Step(c, s, e).state, e.request;
    var t0, t := Replay(c, b0, Commits(s), []), Replay(c, b, Commits(s), feed);
    var m0, m := MomentAt([], |Commits(s)|), MomentAt(feed, |Commits(s)|);
    CommitShape(c, s, e);
    MirrorsBack(g, t0);
    MirrorsChain(true, t0, g, t);
    CommitMirrors(c, v, s, e, t0, m0, epoch0);
    CommitMirrors(c, v, s, e, t, m, epoch);
    ReplayLonger(c, s, next, r, b0, []);
    ReplayLonger(c, s, next, r, b, feed);
    if !r.kind.DeclareQueue? {
      CommitHome(c, v, s, e, t0, epoch0);
    }
    CommitAlike(c, v.Everything?, s, t0, t, r, m0, m, epoch0, epoch);
  }

  // ---- restarts -------------------------------------------------------------

  lemma RecalledKept(t: State, t': State, r: Request)
    requires Recalled(t, r) && t'.names == t.names
    requires forall i :: i in t.queues ==> i in t'.queues && SameAttempts(t.queues[i].memo, t'.queues[i].memo)
    ensures Recalled(t', r)
  {
    hide SameAttempts, Mentions;
    if !r.kind.DeclareQueue? {
      SameAttemptsWithin(t.queues[r.queue].memo, t'.queues[r.queue].memo, {});
    }
  }

  /** Nothing but clocks and outcomes in memos tells the two apart. */
  predicate Still(t: State, t': State) {
    && Mirrors(true, t, t') && t'.shuttingDown == t.shuttingDown
    && forall i :: i in t.queues ==> i in t'.queues && SameAttempts(t.queues[i].memo, t'.queues[i].memo)
  }

  lemma StillChain(a: State, b: State, d: State)
    requires Still(a, b) && Still(b, d)
    ensures Still(a, d)
  {
    hide Mirrors;
    MirrorsChain(true, a, b, d);
  }

  lemma StillSelf(t: State)
    ensures Still(t, t)
  {
    hide SameDurable;
    forall i | i in t.queues ensures SameDurable(t.queues[i], t.queues[i]) {
      SameSelf(t.queues[i]);
    }
  }

  /** Going through recalled requests again changes nothing durable. */
  lemma {:induction false} RecalledTail(c: Config, b: State, order: seq<Request>, more: seq<Request>, feed: seq<Moment>, epoch: nat)
    requires c.hasJournal && GoodFeed(feed) && Replayable(c, b, epoch)
    requires forall k :: 0 <= k < |more| ==> Recordable(more[k]) && Recalled(Replay(c, b, order, feed), more[k])
    ensures Still(Replay(c, b, order, feed), Replay(c, b, order + more, feed))
  {
    hide Replayable, Apply, Recordable, Recalled, Still, Replay, Counted, EpochsAgree;
    var t := Replay(c, b, order, feed);
    if more == [] {
      assert order + more == order;
      StillSelf(t);
    } else {
      var n := |more| - 1;
      var mid := Replay(c, b, order + more[..n], feed);
      RecalledTail(c, b, order, more[..n], feed, epoch);
      ReplayReplayable(c, b, order + more[..n], feed, epoch);
      ReplayableCounts(c, mid, epoch);
      assert order + more == (order + more[..n]) + [more[n]];
      ReplayOne(c, b, order + more[..n], more[n], feed);
      StillRecalls(t, mid, more[n]);
      var m := MomentAt(feed, |order + more[..n]|);
      StillStep(c, mid, more[n], m);
      StillChain(t, mid, Apply(c, mid, more[n], m.clock, m.io, true).state);
    }
  }

  lemma StillRecalls(t: State, t': State, r: Request)
    requires Still(t, t') && Recalled(t, r)
    ensures Recalled(t', r)
  {
    hide MirrorQueues, SameAttempts;
    RecalledKept(t, t', r);
  }

  lemma StillStep(c: Config, t: State, r: Request, m: Moment)
    requires c.hasJournal && m.io.Good? && Recordable(r) && Counted(t) && Recalled(t, r)
    ensures Still(t, Apply(c, t, r, m.clock, m.io, true).state)
  {
    hide Apply, Recordable, Counted, Recalled, Mirrors, SameAttempts;
    ReplayRecalled(c, t, r, m);
  }

  lemma DecodableRecords(r: Request)
    requires Decodable(r)
    ensures Recordable(r)
  {
  }

  /** What the memos hold after requests that stood in the journal already. */
  lemma RebuiltAgain(c: Config, s: State, next: State, t: State, t': State, more: seq<Request>)
    requires Rebuilt(c, s, t) && Room(c, s) && Still(t, t') && next.names == s.names && next.queues.Keys == s.queues.Keys
    requires Commits(next) == Commits(s) + more && Stored(next).queues == Stored(s).queues
    requires forall k :: 0 <= k < |more| ==> more[k] in Commits(s)
    ensures Rebuilt(c, next, t')
  {
    hide Stored, Commits, Roster, Mirrors, Recalled, SameAttempts, MemoWithin, Durable;
    var queues, order := Stored(s).queues, Commits(s);
    forall i ensures Roster(queues, order + more, next.names, i) == Roster(queues, order, s.names, i) {
      RosterRepeats(queues, order, more, s.names, i);
    }
    StillIds(t, t');
    forall i | i in t'.queues ensures MemoWithin(t'.queues[i].memo, Roster(queues, order + more, next.names, i)) {
      SameAttemptsWithin(t.queues[i].memo, t'.queues[i].memo, Roster(queues, order, s.names, i));
    }
    forall k | 0 <= k < |order + more| && Durable((order + more)[k].kind) ensures Recalled(t', (order + more)[k]) {
      var j :| 0 <= j < |order| && order[j] == (order + more)[k];
      StillRecalls(t, t', order[j]);
    }
  }

  lemma StillIds(t: State, t': State)
    requires Still(t, t')
    ensures t'.queues.Keys == t.queues.Keys && t'.shuttingDown == t.shuttingDown
  {
    hide SameAttempts, Mirror;
  }

  /** A restart rebuilds what the journal is faithful to. */
  lemma RestartMirrors(c: Config, exact: bool, s: State, e: Event, g: State)
    requires c.hasJournal && Inv(c, s) && Names.NameInv(c, s) && FaithfulTo(c, exact, s, g)
    requires e.Restart? && GoodFeed(e.feed) && Step(c, s, e).verdict.Took?
    ensures Mirrors(exact, s, Step(c, s, e).state) && Mirrors(exact, Step(c, s, e).state, g)
    ensures exact ==> FenceExact(Step(c, s, e).state)
  {
    hide Step, Inv, Names.Indexed, Names.RecordsGood, Flushed, Suits, Replay, Base, Stored, Rebuilt, SameQueues, MirrorQueues, Agrees, FenceExact,
      Names.SameKeys, Names.PartOf;
    var next := Step(c, s, e).state;
    var b := Base(Stored(s), s.journal, e.boot);
    BaseSuits(c, s, e.boot);
    assert Replays(c, s, g, b, e.feed);
    var t := Replay(c, b, Commits(s), e.feed);
    RestartQueues(c, s, e);
    RebuiltQueues(exact, s, g, t, next);
    Names.RestartNames(c, s, e);
    MirrorKeys(exact, s.queues, next.queues);
    SameIndexes(c, s, next);
    RestartFence(c, s, e);
    if exact {
      MirrorExact(s.queues, next.queues);
      FencesEqual(s, next);
    }
  }

  lemma RebuiltQueues(exact: bool, s: State, g: State, t: State, next: State)
    requires Mirrors(exact, s, g) && Mirrors(true, g, t) && SameQueues(t.queues, next.queues)
    ensures MirrorQueues(exact, s.queues, next.queues) && MirrorQueues(exact, next.queues, g.queues)
  {
    hide SameDurable, SameShape;
    forall i | i in s.queues ensures Mirror(exact, s.queues[i], next.queues[i]) && Mirror(exact, next.queues[i], g.queues[i]) {
      SameSelf(s.queues[i]);
      SameDurableChain(g.queues[i], t.queues[i], next.queues[i]);
      MirrorChain(exact, s.queues[i], s.queues[i], g.queues[i], next.queues[i]);
      SameDurableBack(g.queues[i], next.queues[i]);
      DurableIsMirror(exact, next.queues[i], g.queues[i]);
    }
  }

  /** A later start suits the journal as it was before the restart. */
  lemma RestartSuits(c: Config, s: State, e: Event, b: State, epoch: nat)
    requires c.hasJournal && Flushed(s) && Agrees(s.resources, Stored(s).resources)
    requires e.Restart? && GoodFeed(e.feed) && Step(c, s, e).verdict.Took? && Suits(c, Step(c, s, e).state, b, epoch)
    ensures Suits(c, s, b, epoch)
  {
    hide Step, Flushed, Stored, Agrees, Replayable, Names.Indexed, FenceExact, TakenIn;
    var next := Step(c, s, e).state;
    RestartReads(c, s, e);
    SameHousesAgree(Stored(s).resources, next.resources);
    if Commits(s) != [] {
      AgreesChain(s.resources, Stored(s).resources, next.resources);
      AgreesChain(s.resources, next.resources, b.resources);
    }
  }

  lemma AgainRecorded(c: Config, s: State, e: Event, t: State) returns (more: seq<Request>)
    requires c.hasJournal && Flushed(s) && e.Restart? && GoodFeed(e.feed) && Step(c, s, e).verdict.Took? && RecallsAll(t, Commits(s))
    ensures var next := Step(c, s, e).state; Commits(next) == Commits(s) + more && Stored(next).queues == Stored(s).queues
    ensures forall k :: 0 <= k < |more| ==> more[k] in Commits(s) && Recordable(more[k]) && Recalled(t, more[k])
  {
    hide Step, Load, TakenIn, Base, Recordable, Recalled, Decodable, Durable;
    RestartReads(c, s, e);
    var base := Base(Stored(s), s.journal, e.boot);
    more := TakenIn(c, base, Commits(s), e.feed);
    OrderDecodable(s.journal.records, s.journal.headerEpoch);
    forall k | 0 <= k < |more| ensures more[k] in Commits(s) && Recordable(more[k]) && Recalled(t, more[k]) {
      TakenMembers(c, base, Commits(s), e.feed, k);
      var j :| 0 <= j < |Commits(s)| && Commits(s)[j] == more[k];
      DecodableRecords(more[k]);
    }
  }

  /** With room in the memos, the journal that a recovery leaves, its commits
      standing there twice, is as faithful as before. */
  lemma RestartFaithful(c: Config, exact: bool, s: State, e: Event, g: State)
    requires c.hasJournal && Inv(c, s) && Names.NameInv(c, s) && FaithfulTo(c, exact, s, g) && Room(c, s)
    requires e.Restart? && GoodFeed(e.feed) && Step(c, s, e).verdict.Took?
    ensures FaithfulTo(c, exact, Step(c, s, e).state, g)
  {
    hide Step, Inv, Names.NameInv, Flushed, Suits, Replay, Stored, Commits, Rebuilt, Agrees, FenceExact, Room, Mirrors, TakenIn, SameHouses;
    var next := Step(c, s, e).state;
    RestartMirrors(c, exact, s, e, g);
    RestartStored(c, s, e);
    forall b, epoch, feed | Suits(c, next, b, epoch) && GoodFeed(feed) ensures Replays(c, next, g, b, feed) {
      RestartSuits(c, s, e, b, epoch);
      assert Replays(c, s, g, b, feed);
      RestartReplays(c, exact, s, e, g, b, feed, epoch);
    }
  }

  lemma RestartStored(c: Config, s: State, e: Event)
    requires c.hasJournal && Flushed(s) && e.Restart? && GoodFeed(e.feed) && Step(c, s, e).verdict.Took?
    ensures var next := Step(c, s, e).state; Flushed(next) && Agrees(next.resources, Stored(next).resources)
  {
    hide Step, Flushed, Stored, Agrees, TakenIn;
    RestartReads(c, s, e);
    SameHousesAgree(Stored(s).resources, Step(c, s, e).state.resources);
  }

  lemma RestartReplays(c: Config, exact: bool, s: State, e: Event, g: State, b: State, feed: seq<Moment>, epoch: nat)
    requires c.hasJournal && Flushed(s) && Room(c, s) && GoodFeed(feed) && Suits(c, s, b, epoch) && Replays(c, s, g, b, feed)
    requires e.Restart? && GoodFeed(e.feed) && Step(c, s, e).verdict.Took? && Mirrors(exact, s, Step(c, s, e).state)
    ensures Replays(c, Step(c, s, e).state, g, b, feed)
  {
    hide Step, Flushed, Stored, Commits, Agrees, FenceExact, Room, MirrorQueues, Replay, Replayable, Names.Indexed, RecallsAll, MemosWithin, Recalled,
      Recordable;
    var next := Step(c, s, e).state;
    var t := Replay(c, b, Commits(s), feed);
    var more := AgainRecorded(c, s, e, t);
    RecalledTail(c, b, Commits(s), more, feed, epoch);
    var t' := Replay(c, b, Commits(next), feed);
    MirrorIds(exact, s.queues, next.queues);
    RebuiltAgain(c, s, next, t, t', more);
    StillMirrors(g, t, t');
  }

  lemma StillMirrors(g: State, t: State, t': State)
    requires Mirrors(true, g, t) && Still(t, t')
    ensures Mirrors(true, g, t')
  {
    hide Mirrors, SameAttempts;
    MirrorsChain(true, g, t, t');
  }

  // ---- checkpoints ----------------------------------------------------------

  /** A new journal reads back as the empty state. */
  lemma StartIsCheckpoint(c: Config, v: View, boot: Boot)
    requires c.hasJournal
    ensures Checkpoint(v, Start(c, boot))
  {
    hide Apply, WithCount, Adopted, Distrusted, Orphaned, StorableQueue, StorableResource, Restored, Decodable, NamesOf;
    var j := Journal([], 0, 0);
    var l := Load([], 0);
    var base := Base(l, j, boot);
    var none: map<Id, Queue> := map[];
    assert Tokens(none) == {};
    assert Distrust(base, l.outstanding).queues == none;
    LoadAnother([], EpochState(boot, 1, 1), 1);
    assert Start(c, boot).journal.records == [] + [EpochState(boot, 1, 1)];
  }

  lemma RestoredDurable(s: State)
    requires SelfKeyed(s)
    ensures SameQueues(s.queues, map i | i in s.queues :: Restored(s.queues[i]))
  {
    hide Reopened, Occupancies.Invalidate;
  }

  /** Compaction makes a checkpoint of any state whose records fit their formats,
      quiesced queues included, whatever the journal held before. */
  lemma CompactionIsCheckpoint(c: Config, v: View, s: State, e: Event)
    requires Inv(c, s) && (v.Everything? ==> FenceExact(s)) && Snapshots.Storable(s) && e.CompactJournal? && Step(c, s, e).verdict.Took?
    ensures Checkpoint(v, Step(c, s, e).state)
  {
    hide Step, Inv, Snapshot, Load, Snapshots.Storable, SelfKeyed, SameQueues, FenceExact, Restored, Snapshots.StorableResources,
      Snapshots.StorableQueues;
    var next := Step(c, s, e).state;
    Snapshots.CompactedJournal(c, s, e.io);
    Names.InvSelfKeyed(c, s);
    Snapshots.SnapshotReadsBack(s, s.journal.headerEpoch);
    Snapshots.StorableAmong(s);
    RestoredDurable(s);
    if v.Everything? {
      SameFence(s, next);
    }
    forall i | i in s.resources ensures SameTopology(s.resources[i], s.resources[i]) {
      SameTopologySelf(s.resources[i]);
    }
  }

  lemma SameFence(s: State, next: State)
    requires FenceExact(s) && next.queues == s.queues && next.ids == s.ids
    ensures FenceExact(next)
  {
  }

  // ---- runs -----------------------------------------------------------------

  lemma FaithfulFence(c: Config, exact: bool, s: State, g: State)
    requires FaithfulTo(c, exact, s, g)
    ensures Flushed(s) && (exact ==> FenceExact(s))
  {
    hide Flushed, FenceExact, Mirrors, Suits, Replays, Agrees;
  }

  /** Every tame step keeps the journal faithful. */
  lemma StepFaithful(c: Config, v: View, s: State, e: Event, g: State) returns (g': State)
    requires c.hasJournal && Inv(c, s) && Names.NameInv(c, s) && !v.Naming? && FaithfulTo(c, v.Everything?, s, g)
    requires Tame(c, v, s, e) && (e.Restart? ==> Step(c, s, e).verdict.Took?)
    ensures FaithfulTo(c, v.Everything?, Step(c, s, e).state, g')
  {
    hide Step, Inv, Names.NameInv, FaithfulTo, Steady, Snapshots.Storable, Room, CommitsIn, Commits, Checkpoint, Flushed, FenceExact, GoodFeed;
    g' := g;
    if Steady(c, v, s, e) {
      if CommitsIn(c, s, e) {
        g' := CommitFaithful(c, v, s, e, g);
      } else if Commits(Step(c, s, e).state) == Commits(s) {
        QuietFaithful(c, v, s, e, g);
      } else {
        MarkerFaithful(c, v, s, e, g);
      }
    } else if e.Restart? {
      RestartFaithful(c, v.Everything?, s, e, g);
    } else if Step(c, s, e).verdict.Took? {
      FaithfulFence(c, v.Everything?, s, g);
      CompactionIsCheckpoint(c, v, s, e);
      StepInv(c, s, e);
      StepNames(c, s, e);
      g' := CheckpointFaithful(c, v, Step(c, s, e).state);
    } else {
      FaithfulFence(c, v.Everything?, s, g);
      CompactWrites(c, s, e);
    }
  }

  /** Behind a checkpoint the journal of any tame run, restarts and compactions
      included, is faithful. */
  lemma {:induction false} RunFaithful(c: Config, v: View, s: State, es: seq<Event>) returns (g: State)
    requires c.hasJournal && Inv(c, s) && Names.NameInv(c, s) && !v.Naming? && Checkpoint(v, s) && Serves(c, s, es) && TameRun(c, v, s, es)
    ensures FaithfulTo(c, v.Everything?, Exec(c, s, es), g)
  {
    hide Step, Inv, Names.NameInv, FaithfulTo, Tame, Checkpoint;
    if es == [] {
      g := CheckpointFaithful(c, v, s);
    } else {
      var n := |es| - 1;
      g := RunFaithful(c, v, s, es[..n]);
      ExecInv(c, s, es[..n]);
      Names.ExecNames(c, s, es[..n]);
      g := StepFaithful(c, v, Exec(c, s, es[..n]), es[n], g);
    }
  }

  /** From any checkpoint, after any tame run, recovery rebuilds the queues in
      everything durable, or in shape, and the names and numbering. */
  lemma TameRebuilds(c: Config, v: View, s: State, es: seq<Event>, e: Event)
    requires c.hasJournal && Inv(c, s) && Names.NameInv(c, s) && !v.Naming? && Checkpoint(v, s) && Serves(c, s, es) && TameRun(c, v, s, es)
    requires e.Restart? && GoodFeed(e.feed) && Step(c, Exec(c, s, es), e).verdict.Took?
    ensures Mirrors(v.Everything?, Exec(c, s, es), Step(c, Exec(c, s, es), e).state)
  {
    hide Step, Inv, Exec, TameRun, FaithfulTo, Checkpoint, Names.NameInv, Mirrors, GoodFeed;
    var g := RunFaithful(c, v, s, es);
    ExecInv(c, s, es);
    Names.ExecNames(c, s, es);
    RestartMirrors(c, v.Everything?, Exec(c, s, es), e, g);
  }

  /** The run after its first k events. */
  lemma {:induction false} ExecSplit(c: Config, s: State, es: seq<Event>, k: nat)
    requires k <= |es|
    ensures Exec(c, Exec(c, s, es[..k]), es[k..]) == Exec(c, s, es)
  {
    hide Step;
    if k == |es| {
      assert es[..k] == es && es[k..] == [];
    } else {
      var n := |es| - 1;
      assert es[..n][..k] == es[..k] && es[..n][k..] == es[k..][..n - k];
      ExecSplit(c, s, es[..n], k);
    }
  }

  lemma {:induction false} ServesSplit(c: Config, s: State, es: seq<Event>, k: nat)
    requires Serves(c, s, es) && k <= |es|
    ensures Serves(c, s, es[..k]) && Serves(c, Exec(c, s, es[..k]), es[k..])
  {
    hide Step;
    if k == |es| {
      assert es[..k] == es && es[k..] == [];
    } else {
      var n := |es| - 1;
      assert es[..n][..k] == es[..k] && es[..n][k..] == es[k..][..n - k];
      ServesSplit(c, s, es[..n], k);
      ExecSplit(c, s, es[..n], k);
    }
  }

  /** Replay refines the live run: take any run on an empty journal, with any
      restarts, failures and compactions, that reaches a checkpoint (its start, or
      a compaction of records that fit), and any tame run behind that, whatever
      dynamic, rejected, epoch-advancing or compacting steps and whatever further
      restarts it contains. Then a crash and recovery rebuild the same queues, the
      same names and numbering, and for every queue the same definition (except
      the time of declaration), lifecycle, fence and failure reason. */
  lemma ReplayRefinesRun(c: Config, boot: Boot, first: seq<Event>, es: seq<Event>, keep: nat, again: Boot, feed: seq<Moment>, clock: int)
    requires c.hasJournal && Serves(c, Start(c, boot), first) && GoodFeed(feed)
    requires var s := Exec(c, Start(c, boot), first);
      Checkpoint(Everything, s) && Serves(c, s, es) && TameRun(c, Everything, s, es) && Stored(Exec(c, s, es)).epoch < COUNTER_MAX
    ensures var s := Exec(c, Exec(c, Start(c, boot), first), es);
      var reply := Step(c, s, Restart(keep, again, feed, clock));
      && reply.verdict.Took? && SameQueues(s.queues, reply.state.queues)
      && reply.state.names == s.names && reply.state.ids.queue == s.ids.queue
  {
    hide Start, Step, Inv, Exec, TameRun, Flushed, Load, Recover, SameQueues, MirrorQueues, Checkpoint, Names.NameInv, FaithfulTo, FenceExact;
    var s := Exec(c, Start(c, boot), first);
    StartInv(c, boot);
    Names.StartNames(c, boot);
    ExecInv(c, Start(c, boot), first);
    Names.ExecNames(c, Start(c, boot), first);
    var g := RunFaithful(c, Everything, s, es);
    FaithfulFence(c, true, Exec(c, s, es), g);
    RestartOfFlushed(c, Exec(c, s, es), keep, again, feed, clock);
    TameRebuilds(c, Everything, s, es, Restart(keep, again, feed, clock));
    MirrorExact(Exec(c, s, es).queues, Step(c, Exec(c, s, es), Restart(keep, again, feed, clock)).state.queues);
  }

  /** Why a committed quiescence is not tame for everything: no restart makes a
      queue quiesced that its last snapshot does not hold quiesced. */
  lemma QuiescenceNotReplayed(c: Config, s: State, e: Event, i: Id)
    requires c.hasJournal && Inv(c, s) && Flushed(s) && i in s.queues && s.queues[i].lifecycle.Quiesced?
    requires e.Restart? && Step(c, s, e).verdict.Took?
    requires !(i in Stored(s).queues && Stored(s).queues[i].lifecycle.Quiesced?)
    ensures !SameQueues(s.queues, Step(c, s, e).state.queues)
  {
    hide Step, Inv, Load, Quiescence.NoClaims;
    Quiescence.RestartNoClaims(c, s, e);
    assert Survivor(s.journal, e.keep).records == s.journal.records;
  }
}
