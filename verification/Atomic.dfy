/** A mutation takes effect or leaves everything but counters and memos alone. */
module Atomic {
  import opened Status
  import opened Entities
  import opened Mutations
  import opened Work
  import opened Machine
  import opened Evolution
  import opened Run
  import opened Recovery
  import opened Steps
  import Laws
  import Memos
  import Provenances

  /** The records a caller can see, whichever counters and memos differ. */
  predicate SameRecords(c: Config, r: Request, s: State, next: State) {
    && next.queues.Keys == s.queues.Keys
    && (forall i :: i in s.queues ==> Kept(c, r, s.queues[i], next.queues[i]))
    && next.names == s.names && next.resources == s.resources && next.plans == s.plans
    && next.epoch == s.epoch && next.healthy == s.healthy && next.shuttingDown == s.shuttingDown
  }

  lemma UntouchedRecords(c: Config, r: Request, s: State, next: State)
    requires next.queues == s.queues && next.names == s.names && next.resources == s.resources && next.plans == s.plans
    requires next.epoch == s.epoch && next.healthy == s.healthy && next.shuttingDown == s.shuttingDown
    ensures SameRecords(c, r, s, next)
  {
    hide Kept;
    forall i | i in s.queues ensures Kept(c, r, s.queues[i], next.queues[i]) {
      KeptSelf(c, r, s.queues[i]);
    }
  }

  lemma TurnRecords(c: Config, s: State, r: Request, now: int, t: Turn)
    requires r.queue in s.queues && !t.verdict.Took? && Evolved(c, s, now, r, false, t)
    ensures SameRecords(c, r, s, AfterTurn(s, r, now, t).state)
  {
    hide Kept, Worked, Score;
    var next := AfterTurn(s, r, now, t).state;
    forall i | i in s.queues ensures Kept(c, r, s.queues[i], next.queues[i]) {
      KeptSelf(c, r, s.queues[i]);
    }
  }

  lemma DeclareAtomic(c: Config, s: State, now: int, r: Request, io: Io)
    requires r.payload.DeclarePayload?
    ensures var reply := ApplyDeclare(c, s, now, r, io, false);
      && (!reply.verdict.Took? ==> SameRecords(c, r, s, reply.state))
      && reply.state.tally == Score(s.tally, reply.verdict)
  {
    hide SameRecords, CheckDeclaration, Commit, Score, Remembered, NewQueue, Provenances.Observe;
    var reply := ApplyDeclare(c, s, now, r, io, false);
    if CheckDeclaration(c, s, r, false).Took? {
      TakenHasResource(c, s, r, false);
    }
    if !reply.verdict.Took? {
      UntouchedRecords(c, r, s, reply.state);
    }
  }

  lemma ApplyAtomic(c: Config, s: State, r: Request, clock: int, io: Io)
    ensures var reply := Apply(c, s, r, clock, io, false);
      && (!reply.verdict.Took? ==> SameRecords(c, r, s, reply.state))
      && (if s.shuttingDown then reply.verdict == Rejected(ShuttingDown) && reply.state.tally == s.tally
          else reply.state.tally == Score(s.tally, reply.verdict))
  {
    hide SameRecords, ApplyDeclare, ApplyExisting, Check, Score, Evolved;
    var reply := Apply(c, s, r, clock, io, false);
    var now := Later(s.watermark, clock);
    if s.shuttingDown || !Check(r).Ok? || (!r.kind.DeclareQueue? && r.queue !in s.queues) {
      UntouchedRecords(c, r, s, reply.state);
    } else if r.kind.DeclareQueue? {
      assert PayloadMatches(r.kind, r.payload);
      DeclareAtomic(c, s, now, r, io);
    } else {
      assert PayloadMatches(r.kind, r.payload);
      ExistingEvolves(c, s, now, r, io, false);
      var t := ApplyExisting(c, s, now, r, io, false);
      if !t.verdict.Took? {
        TurnRecords(c, s, r, now, t);
      }
    }
  }

  /** Exactly one counter rose, and by one. */
  predicate CountedOnce(before: Tally, after: Tally, v: Verdict) {
    && after.applied == before.applied + (if v.Took? then 1 else 0)
    && after.replayed == before.replayed + (if v.Repeated? then 1 else 0)
    && after.rejected == before.rejected + (if v.Rejected? then 1 else 0)
  }

  /** A mutation that was refused, or answered from memory, changed no
      definition, lifecycle, flag, occupancy, fence, drain or acknowledgement,
      no name and no resource; and every call not refused for shutdown raised
      exactly one counter by one. */
  lemma RejectionIsAtomic(c: Config, s: State, e: Event)
    requires e.Mutate?
    ensures var reply := Step(c, s, e);
      && (!reply.verdict.Took? ==> SameRecords(c, e.request, s, reply.state))
      && (!s.shuttingDown ==> CountedOnce(s.tally, reply.state.tally, reply.verdict))
      && (s.shuttingDown ==> reply.verdict == Rejected(ShuttingDown) && reply.state.tally == s.tally)
  {
    hide SameRecords, Apply, DeclareResource, GrantCapabilities, DeclareClass, DeclarePool, AddBackend, MarkDead, AdvanceEpoch,
      InvalidateEvidence, Refresh, Explain, Reserve, CommitPlan, AbortPlan, Compact, Shutdown, Recover;
    assert Unfold(c, s, e);
    ApplyAtomic(c, s, e.request, e.clock, e.io);
  }

  lemma ExistingAnswers(c: Config, s: State, now: int, r: Request, io: Io, m: Memo)
    requires PayloadMatches(r.kind, r.payload) && r.queue in s.queues && Memos.Find(s.queues[r.queue].memo, r.attempt) == Some(m)
    ensures ApplyExisting(c, s, now, r, io, false).verdict ==
      if m.fingerprint == c.hash(EffectOf(r)) then Repeated(m.outcome) else Rejected(Conflict)
  {
    hide EffectOf, Memos.Find, Execute, Allowed, Provenances.Classify, Remembered, CheckCurrent;
  }

  /** An attempt the queue remembers is answered from memory: with the remembered
      outcome when it asks for the same effect, as a conflict when it does not. */
  lemma RememberedAttemptAnswered(c: Config, s: State, e: Event, m: Memo)
    requires e.Mutate? && !s.shuttingDown && Check(e.request).Ok? && !e.request.kind.DeclareQueue? && e.request.queue in s.queues
    requires Memos.Find(s.queues[e.request.queue].memo, e.request.attempt) == Some(m)
    ensures Step(c, s, e).verdict == if m.fingerprint == c.hash(EffectOf(e.request)) then Repeated(m.outcome) else Rejected(Conflict)
  {
    hide ApplyDeclare, ApplyExisting, Check, Score, EffectOf, Memos.Find, DeclareResource, GrantCapabilities, DeclareClass, DeclarePool,
      AddBackend, MarkDead, AdvanceEpoch, InvalidateEvidence, Refresh, Explain, Reserve, CommitPlan, AbortPlan, Compact, Shutdown, Recover;
    assert Unfold(c, s, e);
    assert PayloadMatches(e.request.kind, e.request.payload);
    ExistingAnswers(c, s, Later(s.watermark, e.clock), e.request, e.io, m);
  }

  /** A retry of a remembered attempt is answered with the first outcome, whoever
      sends it and whatever epoch it claims. */
  lemma RetryAnswered(c: Config, s: State, e: Event, m: Memo, first: Request)
    requires e.Mutate? && !s.shuttingDown && Check(e.request).Ok? && !e.request.kind.DeclareQueue? && e.request.queue in s.queues
    requires Memos.Find(s.queues[e.request.queue].memo, e.request.attempt) == Some(m) && m.fingerprint == c.hash(EffectOf(first))
    requires e.request == first.(attempt := e.request.attempt, provenance := e.request.provenance, expectedEpoch := e.request.expectedEpoch)
    ensures Step(c, s, e).verdict == Repeated(m.outcome)
  {
    hide Step, Check, EffectOf, Memos.Find;
    RememberedAttemptAnswered(c, s, e, m);
    Laws.RetriesShareEffect(first, e.request.attempt, e.request.provenance, e.request.expectedEpoch);
  }

  /** Reusing a remembered attempt for anything else is a conflict, unless the
      fingerprints collide or both ask for samples, evidence or acknowledgements
      that differ only where their effect does not look. */
  lemma ReuseConflicts(c: Config, s: State, e: Event, m: Memo, first: Request)
    requires e.Mutate? && !s.shuttingDown && Check(e.request).Ok? && !e.request.kind.DeclareQueue? && e.request.queue in s.queues
    requires Memos.Find(s.queues[e.request.queue].memo, e.request.attempt) == Some(m) && m.fingerprint == c.hash(EffectOf(first))
    requires EffectOf(e.request) != EffectOf(first) ==> c.hash(EffectOf(e.request)) != c.hash(EffectOf(first))
    requires !(first.payload.EvidencePayload? || first.payload.AckPayload? || first.payload.OccupancyPayload?)
    requires (first.kind, first.queue, first.expectedGeneration, first.principal, first.payload) !=
      (e.request.kind, e.request.queue, e.request.expectedGeneration, e.request.principal, e.request.payload)
    ensures Step(c, s, e).verdict == Rejected(Conflict)
  {
    hide Step, Check, EffectOf, Memos.Find;
    RememberedAttemptAnswered(c, s, e, m);
    if EffectOf(first) == EffectOf(e.request) {
      Laws.EffectsTellApart(first, e.request);
    }
  }
}
