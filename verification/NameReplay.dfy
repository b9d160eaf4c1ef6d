/** Names and numbering alone: replay rebuilds them whatever becomes of
    lifecycles, fences and memos. */
module NameReplay {
  import opened Entities
  import opened Mutations
  import opened Work
  import opened Machine
  import opened Recovery
  import opened Run
  import opened Steps
  import opened Reach
  import opened GoodRuns
  import opened Twins
  import opened Ledger
  import opened Recalls
  import opened Refinement
  import Names
  import Epochs
  import Deltas
  import Snapshots
  import Counts

  // ---- keys -----------------------------------------------------------------

  /** The same queues under the same names, and the same next identity. */
  predicate Keyed(s: State, t: State) {
    Names.SameKeys(s.queues, t.queues) && t.names == s.names && t.ids.queue == s.ids.queue
  }

  lemma KeyedChain(a: State, b: State, d: State)
    requires Keyed(a, b) && Keyed(b, d)
    ensures Keyed(a, d)
  {
    hide KeyOf;
  }

  lemma KeyedBack(a: State, b: State)
    requires Keyed(a, b)
    ensures Keyed(b, a)
  {
    hide KeyOf;
  }

  /** The declarations of the journal hold their names. */
  predicate Named(t: State, order: seq<Request>) {
    forall k :: 0 <= k < |order| && order[k].kind.DeclareQueue? ==> Recalled(t, order[k])
  }

  ghost predicate NamesReplay(c: Config, s: State, b: State, feed: seq<Moment>) {
    var t := Replay(c, b, Commits(s), feed);
    Keyed(s, t) && !t.shuttingDown && Named(t, Commits(s))
  }

  /** Wherever replay of the journal starts, it ends with the names and numbering
      of the state. */
  ghost predicate FaithfulNames(c: Config, s: State) {
    && Flushed(s) && Agrees(s.resources, Stored(s).resources)
    && forall b, epoch, feed :: Suits(c, s, b, epoch) && GoodFeed(feed) ==> NamesReplay(c, s, b, feed)
  }

  lemma CheckpointNames(c: Config, s: State)
    requires c.hasJournal && Names.NameInv(c, s) && Checkpoint(Naming, s)
    ensures FaithfulNames(c, s)
  {
    hide Names.Indexed, Names.RecordsGood, Flushed, Replayable, Stored, Agrees, FenceExact, Commits, SameQueues, MirrorQueues, Names.SameKeys,
      Names.PartOf;
    forall b, epoch, feed | Suits(c, s, b, epoch) && GoodFeed(feed) ensures NamesReplay(c, s, b, feed) {
      assert Replay(c, b, [], feed) == b;
      MirrorExact(s.queues, b.queues);
      MirrorKeys(true, s.queues, b.queues);
      SameIndexes(c, s, b);
    }
  }

  // ---- one request ----------------------------------------------------------

  lemma ApplyKeyed(c: Config, t: State, r: Request, m: Moment)
    requires Counted(t) && !(r.kind.DeclareQueue? && Apply(c, t, r, m.clock, m.io, true).verdict.Took?)
    ensures var next := Apply(c, t, r, m.clock, m.io, true).state; Keyed(t, next) && next.shuttingDown == t.shuttingDown
  {
    hide Apply, Counted, QueuesAfter, KeyOf, Heard, Journalled;
    CountedNumbered(t);
    ApplyQueues(c, t, r, m.clock, m.io, true);
    ApplyRest(c, t, r, m.clock, m.io, true);
    Names.ApplyNames(c, t, r, m.clock, m.io, true);
    Names.SameKeysAfter(c, t, r, true, Apply(c, t, r, m.clock, m.io, true));
  }

  lemma DeclaredKeyed(c: Config, s: State, t: State, r: Request, clock: int, io: Io, m: Moment)
    requires Counted(s) && Counted(t) && Keyed(s, t) && r.kind.DeclareQueue?
    requires Apply(c, s, r, clock, io, false).verdict.Took? && Apply(c, t, r, m.clock, m.io, true).verdict.Took?
    ensures var next, next' := Apply(c, s, r, clock, io, false).state, Apply(c, t, r, m.clock, m.io, true).state;
      Keyed(next, next') && next'.shuttingDown == t.shuttingDown && Recalled(next', r)
  {
    hide Apply, Counted, Handled, Installed, HasTarget, KeyOf, Heard, Journalled;
    var reply, reply' := Apply(c, s, r, clock, io, false), Apply(c, t, r, m.clock, m.io, true);
    CountedNumbered(s);
    CountedNumbered(t);
    ApplyQueues(c, s, r, clock, io, false);
    ApplyQueues(c, t, r, m.clock, m.io, true);
    ApplyRest(c, t, r, m.clock, m.io, true);
    Names.ApplyNames(c, s, r, clock, io, false);
    Names.ApplyNames(c, t, r, m.clock, m.io, true);
    Names.GrownKeys(c, s, r, false, reply);
    Names.GrownKeys(c, t, r, true, reply');
  }

  lemma NamedKept(t: State, t': State, order: seq<Request>)
    requires Named(t, order) && forall k :: k in t.names ==> k in t'.names
    ensures Named(t', order)
  {
  }

  // ---- one call -------------------------------------------------------------

  ghost predicate Declares(c: Config, s: State, e: Event) {
    e.Mutate? && e.request.kind.DeclareQueue? && Step(c, s, e).verdict.Took?
  }

  lemma LiveKeyed(c: Config, s: State, e: Event)
    requires Counted(s) && !e.Restart? && !Declares(c, s, e)
    ensures Keyed(s, Step(c, s, e).state)
  {
    hide Step, Apply, Counted, QueueSteps, ResourceSteps, CoreStep, JournalStep, QueuesAfter, Names.SameKeys;
    if e.Mutate? {
      MutateIsApply(c, s, e);
      CountedNumbered(s);
      ApplyQueues(c, s, e.request, e.clock, e.io, false);
      Names.ApplyNames(c, s, e.request, e.clock, e.io, false);
      Names.SameKeysAfter(c, s, e.request, false, Step(c, s, e));
    } else {
      Deltas.StepDelta(c, s, e);
      Names.OtherNames(c, s, e);
      Names.OtherKeys(c, s, e, Step(c, s, e));
    }
  }

  lemma DeclareDecodes(c: Config, s: State, e: Event)
    requires Declares(c, s, e)
    ensures Decodable(e.request) && Durable(e.request.kind)
  {
    hide Step, Apply, Check;
    MutateIsApply(c, s, e);
    TookChecked(c, s, e.request, e.clock, e.io, false);
    DeclarePayloads(e.request);
    RecordableCodes(e.request);
  }

  /** The request a step adds to the journal, if any, is the declaration it took
      or no declaration. */
  lemma NameOrder(c: Config, s: State, e: Event) returns (r: Option<Request>)
    requires OrderStep(s, e, Step(c, s, e))
    ensures Commits(Step(c, s, e).state) == if r.Some? then Commits(s) + [r.value] else Commits(s)
    ensures if Declares(c, s, e) then e.Mutate? && r == Some(e.request) else r.Some? ==> !r.value.kind.DeclareQueue?
  {
    hide Step, Commits, Decodable;
    r := None;
    if e.Mutate? {
      if Declares(c, s, e) {
        DeclareDecodes(c, s, e);
      }
      if Step(c, s, e).verdict.Took? && Durable(e.request.kind) && Decodable(e.request) {
        r := Some(e.request);
      }
    } else if Commits(Step(c, s, e).state) != Commits(s) {
      r := Some(if e.CommitApply? then AckRequest(e.plan, e.applied, s.epoch, e.sender) else AbortMarker(e.plan));
    }
  }

  lemma NamesReplayStep(c: Config, s: State, e: Event, r: Option<Request>, b: State, feed: seq<Moment>, epoch: nat)
    requires c.hasJournal && Inv(c, s) && Settled(c, s, e) && !e.Restart? && GoodFeed(feed) && NamesReplay(c, s, b, feed)
    requires Replayable(c, b, epoch) && (r.Some? && !Reshapes(e) ==> Agrees(s.resources, b.resources)) && (r.Some? ==> !Reshapes(e))
    requires Commits(Step(c, s, e).state) == if r.Some? then Commits(s) + [r.value] else Commits(s)
    requires if Declares(c, s, e) then e.Mutate? && r == Some(e.request) else r.Some? ==> !r.value.kind.DeclareQueue?
    ensures NamesReplay(c, Step(c, s, e).state, b, feed)
  {
    hide Step, Inv, Settled, Replayable, Replay, Commits, Apply, Keyed, Agrees, Counted, EpochsAgree, Recalled, Declares;
    var next := Step(c, s, e).state;
    var t, m := Replay(c, b, Commits(s), feed), MomentAt(feed, |Commits(s)|);
    Epochs.InvCounted(c, s);
    ReplayReplayable(c, b, Commits(s), feed, epoch);
    ReplayableCounts(c, t, epoch);
    if r.None? {
      LiveKeyed(c, s, e);
      KeyedBack(s, next);
      KeyedChain(next, s, t);
    } else {
      ReplayOne(c, b, Commits(s), r.value, feed);
      if Declares(c, s, e) {
        ReplayTopology(c, b, Commits(s), feed);
        SameHousesAgree(b.resources, t.resources);
        AgreesChain(s.resources, b.resources, t.resources);
        DeclareNames(c, s, e, t, m);
      } else {
        LiveKeyed(c, s, e);
        KeyedBack(s, next);
        ApplyKeyed(c, t, r.value, m);
        KeyedChain(next, s, t);
        KeyedChain(next, t, Apply(c, t, r.value, m.clock, m.io, true).state);
      }
      NamesGrown(c, t, r.value, m, Commits(s));
    }
  }

  lemma NamesGrown(c: Config, t: State, r: Request, m: Moment, order: seq<Request>)
    requires Named(t, order)
    ensures Named(Apply(c, t, r, m.clock, m.io, true).state, order)
  {
    hide Apply, KeyOf;
    Names.ApplyNames(c, t, r, m.clock, m.io, true);
    NamedKept(t, Apply(c, t, r, m.clock, m.io, true).state, order);
  }

  lemma DeclareNames(c: Config, s: State, e: Event, t: State, m: Moment)
    requires c.hasJournal && Settled(c, s, e) && e.Mutate? && Declares(c, s, e) && m.io.Good? && Counted(s) && Counted(t) && EpochsAgree(t)
    requires Keyed(s, t) && !t.shuttingDown && Agrees(s.resources, t.resources)
    ensures var next' := Apply(c, t, e.request, m.clock, m.io, true).state;
      Keyed(Step(c, s, e).state, next') && !next'.shuttingDown && Recalled(next', e.request)
  {
    hide Step, Apply, Counted, EpochsAgree, Agrees, Names.SameKeys, Recalled, Counts.ResourcesStorable, Commits;
    MutateIsApply(c, s, e);
    assert e.io == Good;
    DeclareReplays(c, s, t, e.request, e.clock, m);
    DeclaredKeyed(c, s, t, e.request, e.clock, e.io, m);
  }

  lemma SettledNames(c: Config, s: State, e: Event)
    requires c.hasJournal && Inv(c, s) && Settled(c, s, e) && !e.Restart? && FaithfulNames(c, s)
    ensures FaithfulNames(c, Step(c, s, e).state)
  {
    hide Step, Inv, Settled, Commits, Flushed, OrderStep, Stored, Agrees, Suits, NamesReplay, Declares, Replayable;
    var next := Step(c, s, e).state;
    SettledStep(c, s, e);
    var r := NameOrder(c, s, e);
    ReshapesNothing(c, s, e, r);
    forall b, epoch, feed | Suits(c, next, b, epoch) && GoodFeed(feed) ensures NamesReplay(c, next, b, feed) {
      SuitsBefore(c, s, e, b, epoch);
      SuitsReplays(c, s, b, epoch);
      NamesReplayStep(c, s, e, r, b, feed, epoch);
    }
  }

  lemma SuitsReplays(c: Config, s: State, b: State, epoch: nat)
    requires Suits(c, s, b, epoch)
    ensures Replayable(c, b, epoch)
  {
    hide Replayable, Names.Indexed, FenceExact, Agrees, Stored;
  }

  /** A call that reshapes topology commits nothing. */
  lemma ReshapesNothing(c: Config, s: State, e: Event, r: Option<Request>)
    requires OrderStep(s, e, Step(c, s, e)) && (r.Some? ==> Commits(Step(c, s, e).state) == Commits(s) + [r.value])
    ensures r.Some? ==> !Reshapes(e)
  {
    hide Step, Commits, Decodable, Durable;
    if Reshapes(e) {
      assert Commits(Step(c, s, e).state) == Commits(s);
    }
  }

  // ---- restarts -------------------------------------------------------------

  /** Replaying declarations whose names are held, and anything that is no
      declaration, keeps names and numbering. */
  lemma {:induction false} NamedTail(c: Config, b: State, order: seq<Request>, more: seq<Request>, feed: seq<Moment>, epoch: nat)
    requires Replayable(c, b, epoch) && Named(Replay(c, b, order, feed), more)
    ensures var t, t' := Replay(c, b, order, feed), Replay(c, b, order + more, feed); Keyed(t, t') && t'.shuttingDown == t.shuttingDown
  {
    hide Replayable, Apply, Replay, Counted, EpochsAgree, Names.SameKeys;
    var t := Replay(c, b, order, feed);
    if more == [] {
      assert order + more == order;
      SelfKeys(t);
    } else {
      var n := |more| - 1;
      var mid := Replay(c, b, order + more[..n], feed);
      assert Named(t, more[..n]);
      NamedTail(c, b, order, more[..n], feed, epoch);
      ReplayReplayable(c, b, order + more[..n], feed, epoch);
      ReplayableCounts(c, mid, epoch);
      assert order + more == (order + more[..n]) + [more[n]];
      ReplayOne(c, b, order + more[..n], more[n], feed);
      var m := MomentAt(feed, |order + more[..n]|);
      if more[n].kind.DeclareQueue? {
        RecalledNotTaken(c, mid, more[n], m);
      }
      ApplyKeyed(c, mid, more[n], m);
      KeyedChain(t, mid, Apply(c, mid, more[n], m.clock, m.io, true).state);
    }
  }

  lemma SelfKeys(t: State)
    ensures Keyed(t, t)
  {
  }

  lemma RestartKeyed(c: Config, s: State, e: Event)
    requires c.hasJournal && Inv(c, s) && Names.NameInv(c, s) && FaithfulNames(c, s)
    requires e.Restart? && GoodFeed(e.feed) && Step(c, s, e).verdict.Took?
    ensures Keyed(s, Step(c, s, e).state)
  {
    hide Step, Inv, Names.Indexed, Names.RecordsGood, Flushed, Suits, Replay, Base, Stored, SameQueues, MirrorQueues, Agrees, Names.SameKeys,
      Names.PartOf, Named;
    var next := Step(c, s, e).state;
    var b := Base(Stored(s), s.journal, e.boot);
    BaseSuits(c, s, e.boot);
    assert NamesReplay(c, s, b, e.feed);
    var t := Replay(c, b, Commits(s), e.feed);
    RestartQueues(c, s, e);
    MirrorExact(t.queues, next.queues);
    MirrorKeys(true, t.queues, next.queues);
    KeysChain(s.queues, t.queues, next.queues);
    Names.RestartNames(c, s, e);
    SameIndexes(c, s, next);
  }

  lemma KeysChain(a: map<Id, Queue>, b: map<Id, Queue>, d: map<Id, Queue>)
    requires Names.SameKeys(a, b) && Names.SameKeys(b, d)
    ensures Names.SameKeys(a, d)
  {
    hide KeyOf;
  }

  lemma AgainNamed(c: Config, s: State, e: Event, t: State) returns (more: seq<Request>)
    requires c.hasJournal && Flushed(s) && e.Restart? && GoodFeed(e.feed) && Step(c, s, e).verdict.Took? && Named(t, Commits(s))
    ensures Commits(Step(c, s, e).state) == Commits(s) + more && Named(t, more)
  {
    hide Step, Load, TakenIn, Base, Recalled, Durable;
    RestartReads(c, s, e);
    var base := Base(Stored(s), s.journal, e.boot);
    more := TakenIn(c, base, Commits(s), e.feed);
    forall k | 0 <= k < |more| && more[k].kind.DeclareQueue? ensures Recalled(t, more[k]) {
      TakenMembers(c, base, Commits(s), e.feed, k);
      var j :| 0 <= j < |Commits(s)| && Commits(s)[j] == more[k];
    }
  }

  lemma RestartNamesReplay(c: Config, s: State, e: Event, b: State, feed: seq<Moment>, epoch: nat)
    requires c.hasJournal && Flushed(s) && Suits(c, s, b, epoch) && NamesReplay(c, s, b, feed) && GoodFeed(feed)
    requires e.Restart? && GoodFeed(e.feed) && Step(c, s, e).verdict.Took? && Keyed(s, Step(c, s, e).state)
    ensures NamesReplay(c, Step(c, s, e).state, b, feed)
  {
    hide Step, Flushed, Suits, Commits, Replay, Replayable, Names.SameKeys, Recalled;
    var next, t := Step(c, s, e).state, Replay(c, b, Commits(s), feed);
    var more := AgainNamed(c, s, e, t);
    SuitsReplays(c, s, b, epoch);
    NamedTail(c, b, Commits(s), more, feed, epoch);
    var t' := Replay(c, b, Commits(next), feed);
    KeyedBack(s, next);
    KeyedChain(next, s, t);
    KeyedChain(next, t, t');
    NamedBoth(t, Commits(s), more);
    NamedKept(t, t', Commits(next));
  }

  lemma NamedBoth(t: State, order: seq<Request>, more: seq<Request>)
    requires Named(t, order) && Named(t, more)
    ensures Named(t, order + more)
  {
  }

  lemma RestartNamesFaithful(c: Config, s: State, e: Event)
    requires c.hasJournal && Inv(c, s) && Names.NameInv(c, s) && FaithfulNames(c, s)
    requires e.Restart? && GoodFeed(e.feed) && Step(c, s, e).verdict.Took?
    ensures FaithfulNames(c, Step(c, s, e).state)
  {
    hide Step, Inv, Names.NameInv, Flushed, Suits, Stored, Commits, Agrees, NamesReplay, Keyed;
    var next := Step(c, s, e).state;
    RestartKeyed(c, s, e);
    RestartStored(c, s, e);
    forall b, epoch, feed | Suits(c, next, b, epoch) && GoodFeed(feed) ensures NamesReplay(c, next, b, feed) {
      RestartSuits(c, s, e, b, epoch);
      RestartNamesReplay(c, s, e, b, feed, epoch);
    }
  }

  // ---- runs -----------------------------------------------------------------

  lemma FaithfulFlushed(c: Config, s: State)
    requires FaithfulNames(c, s)
    ensures Flushed(s)
  {
    hide Flushed, Agrees, Suits, NamesReplay;
  }

  lemma StepNamesFaithful(c: Config, s: State, e: Event)
    requires c.hasJournal && Inv(c, s) && Names.NameInv(c, s) && FaithfulNames(c, s)
    requires Tame(c, Naming, s, e) && (e.Restart? ==> Step(c, s, e).verdict.Took?)
    ensures FaithfulNames(c, Step(c, s, e).state)
  {
    hide Step, Inv, Names.NameInv, FaithfulNames, Settled, Snapshots.Storable, Room, Checkpoint, GoodFeed;
    if Steady(c, Naming, s, e) {
      SettledIsCall(c, s, e);
      SettledNames(c, s, e);
    } else if e.Restart? {
      RestartNamesFaithful(c, s, e);
    } else if Step(c, s, e).verdict.Took? {
      CompactionIsCheckpoint(c, Naming, s, e);
      Refinement.StepNames(c, s, e);
      CheckpointNames(c, Step(c, s, e).state);
    } else {
      FaithfulFlushed(c, s);
      CompactWrites(c, s, e);
    }
  }

  lemma SettledIsCall(c: Config, s: State, e: Event)
    requires Settled(c, s, e)
    ensures !e.Restart?
  {
    hide Step, Counts.ResourcesStorable, Commits;
  }

  /** Behind a checkpoint the journal of any run that is tame for names, with any
      number of restarts, is faithful to its names. */
  lemma {:induction false} RunNamesFaithful(c: Config, s: State, es: seq<Event>)
    requires c.hasJournal && Inv(c, s) && Names.NameInv(c, s) && Checkpoint(Naming, s) && Serves(c, s, es) && TameRun(c, Naming, s, es)
    ensures FaithfulNames(c, Exec(c, s, es))
  {
    hide Step, Inv, Names.NameInv, FaithfulNames, Tame, Checkpoint;
    if es == [] {
      CheckpointNames(c, s);
    } else {
      var n := |es| - 1;
      RunNamesFaithful(c, s, es[..n]);
      ExecInv(c, s, es[..n]);
      Names.ExecNames(c, s, es[..n]);
      StepNamesFaithful(c, Exec(c, s, es[..n]), es[n]);
    }
  }

  /** Recovery then rebuilds every name under its identity and the next identity,
      however small the memos, whatever was fenced, quiesced or committed twice. */
  lemma NamesRebuilt(c: Config, s: State, es: seq<Event>, e: Event)
    requires c.hasJournal && Inv(c, s) && Names.NameInv(c, s) && Checkpoint(Naming, s) && Serves(c, s, es) && TameRun(c, Naming, s, es)
    requires e.Restart? && GoodFeed(e.feed) && Step(c, Exec(c, s, es), e).verdict.Took?
    ensures Keyed(Exec(c, s, es), Step(c, Exec(c, s, es), e).state)
  {
    hide Step, Inv, Exec, TameRun, FaithfulNames, Checkpoint, Names.NameInv, Keyed, GoodFeed;
    RunNamesFaithful(c, s, es);
    ExecInv(c, s, es);
    Names.ExecNames(c, s, es);
    RestartKeyed(c, Exec(c, s, es), e);
  }
}
