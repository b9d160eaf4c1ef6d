/** Memos too small for the journal: what the second restart then does, on runs
    from an empty journal. */
module Evictions {
  import opened Status
  import opened Entities
  import opened Mutations
  import opened Work
  import opened Machine
  import opened Evolution
  import opened Recovery
  import opened Run
  import opened Steps
  import opened Reach
  import opened GoodRuns
  import opened Twins
  import opened Ledger
  import opened Recalls
  import opened Scenario
  import opened Losses
  import Names
  import Authorities
  import Laws
  import Memos
  import MemoLog
  import Provenances
  import Policies
  import Extremes
  import Epochs

  // ---- one replayed fence ---------------------------------------------------

  /** A fence that was committed and lowered again is raised anew by replay, under
      a new token, if and only if its attempt is no longer remembered. */
  lemma ReplayedFenceRedraws(c: Config, t: State, r: Request, m: Moment)
    requires c.hasJournal && m.io.Good? && Recordable(r) && Counted(t) && EpochsAgree(t) && !t.shuttingDown
    requires r.kind.FenceQueue? && Check(r).Ok? && r.queue in t.queues
    requires var q := t.queues[r.queue];
      && !q.flags.fenced && !q.fence.fenced && !q.lifecycle.Retired? && !q.lifecycle.Failed?
      && r.expectedGeneration == q.def.generation != 0 && q.def.resource in t.resources
      && Authorities.Holds(Authorities.CapabilitiesOf(t.resources[q.def.resource].authority.grants, r.principal), FenceQueues)
    ensures var next := Apply(c, t, r, m.clock, m.io, true).state;
      && next.ids.fence == t.ids.fence + (if Mentions(t.queues[r.queue].memo, r.attempt) then 0 else 1)
      && r.queue in next.queues && (next.queues[r.queue].fence.fenced <==> !Mentions(t.queues[r.queue].memo, r.attempt))
  {
    hide Apply, Recordable, Counted, Check, Memos.Find, Authorities.CapabilitiesOf, Bounded, Provenances.Classify;
    var q := t.queues[r.queue];
    MemoLog.FindSpec(q.memo, r.attempt);
    if Mentions(q.memo, r.attempt) {
      ReplayRecalled(c, t, r, m);
    } else {
      assert Admitted(c, t, q, r, true);
      AdmittedTurn(c, t, r, m.clock, m.io, true);
    }
  }

  // ---- a small memo ---------------------------------------------------------

  function AttemptsOf(memo: seq<Memo>): seq<Attempt> {
    seq(|memo|, k requires 0 <= k < |memo| => memo[k].attempt)
  }

  function Pushed(held: seq<Attempt>, a: Attempt, capacity: nat): seq<Attempt> {
    if capacity == 0 || a in held then held else (if |held| >= capacity then held[1..] else held) + [a]
  }

  lemma HeldMentions(memo: seq<Memo>, a: Attempt)
    ensures a in AttemptsOf(memo) <==> Mentions(memo, a)
  {
    if Mentions(memo, a) {
      var k :| 0 <= k < |memo| && memo[k].attempt == a;
      assert AttemptsOf(memo)[k] == a;
    }
  }

  lemma NotedPushes(capacity: nat, memo: seq<Memo>, next: seq<Memo>, a: Attempt)
    requires Noted(capacity, memo, next, a)
    ensures AttemptsOf(next) == Pushed(AttemptsOf(memo), a, capacity)
  {
    HeldMentions(memo, a);
    if !(next == memo && Mentions(memo, a)) {
      var m: Memo :| m.attempt == a && next == Memos.Remember(memo, m, capacity);
      MemoLog.FindSpec(memo, a);
      OverwriteAttempts(memo, m);
      if Memos.Find(memo, a).Some? || capacity == 0 {
        assert AttemptsOf(next) == AttemptsOf(memo);
      } else {
        var kept := if |memo| >= capacity then memo[1..] else memo;
        assert AttemptsOf(kept + [m]) == AttemptsOf(kept) + [a];
        if |memo| >= capacity {
          assert AttemptsOf(memo[1..]) == AttemptsOf(memo)[1..];
        }
      }
    }
  }

  lemma SameAttemptsHeld(memo: seq<Memo>, next: seq<Memo>)
    requires SameAttempts(memo, next)
    ensures AttemptsOf(next) == AttemptsOf(memo)
  {
  }

  // ---- the requests of the runs ---------------------------------------------

  datatype Op = Declaring | Fencing(k: nat) | Unfencing(k: nat) | Limiting(k: nat) | Marking(k: nat)

  const NO_LIMITS: Thresholds := Thresholds(0, 0, 0, 0, 0)
  const NEW_LIMITS: Thresholds := Thresholds(0, 0, 1, 0, 0)

  function Asks(op: Op): Request {
    match op
    case Declaring => First()
    case Fencing(k) => Request(Attempt(1, k), FenceQueue, 1, 1, 1, 1, Sender(k + 4), FencePayload(true, []))
    case Unfencing(k) => Request(Attempt(1, k), UnfenceQueue, 1, 1, 1, 1, Sender(k + 4), FencePayload(false, []))
    case Limiting(k) => Request(Attempt(1, k), SetThresholds, 1, 1, 2, 1, Sender(k + 4), ThresholdsPayload(NEW_LIMITS))
    case Marking(k) => Request(Attempt(1, k), NoOp, 1, 1, 1, 1, Sender(k), NoPayload)
  }

  predicate Numbered1(op: Op) {
    op.Declaring? || op.k >= 1
  }

  function AskAll(ops: seq<Op>): seq<Request> {
    seq(|ops|, k requires 0 <= k < |ops| => Asks(ops[k]))
  }

  lemma AskMore(ops: seq<Op>, more: seq<Op>)
    ensures AskAll(ops + more) == AskAll(ops) + AskAll(more)
  {
  }

  // ---- the queue of the runs ------------------------------------------------

  /** The fence token last drawn, whether the queue is fenced, its generation and
      the attempts it remembers. */
  datatype Lot = Lot(token: nat, fenced: bool, generation: nat, held: seq<Attempt>)

  predicate QueueIs(q: Queue, lot: Lot) {
    && q.def.id == 1 && q.def.resource == 1 && q.def.name == [113] && q.def.cls == ClassBinding(1, 1) && q.def.generation == lot.generation >= 1
    && (lot.generation == 1 ==> q.def.thresholds == NO_LIMITS) && lot.generation <= 2
    && q.lifecycle.Declared? && q.flags.fenced == lot.fenced && q.fence.fenced == lot.fenced && q.fence.token == lot.token
    && AttemptsOf(q.memo) == lot.held
  }

  predicate Site(t: State) {
    && !t.shuttingDown && t.epoch >= 1 && t.resources.Keys == {1} && t.ids.resource >= 2
    && var r := t.resources[1];
      && r.id == 1 && r.classes == [TheClass([], 1)] && r.pools == House2([]).pools && r.epoch == t.epoch
      && r.authority == Authority(1, t.epoch, [Grant(1, EVERYTHING)])
  }

  predicate Vacant(t: State) {
    Site(t) && t.queues == map[] && t.names == map[] && t.ids.queue == 1 && t.ids.fence == 0
  }

  predicate Lone(t: State, lot: Lot) {
    && Site(t) && t.queues.Keys == {1} && t.names == map[NameKey(1, [113]) := 1] && t.ids.queue == 2 && t.ids.fence == lot.token
    && QueueIs(t.queues[1], lot)
  }

  lemma LoneCounted(t: State, lot: Lot)
    requires Lone(t, lot)
    ensures Counted(t) && EpochsAgree(t)
  {
  }

  predicate Takes(lot: Lot, op: Op)
    requires !op.Declaring?
  {
    Attempt(1, op.k) !in lot.held && lot.generation == 1 && (op.Unfencing? || !lot.fenced)
  }

  function After(capacity: nat, lot: Lot, op: Op): Lot {
    if op.Declaring? then lot
    else
      var noted := lot.(held := Pushed(lot.held, Attempt(1, op.k), capacity));
      if !Takes(lot, op) then noted
      else match op
        case Fencing(_) => noted.(token := lot.token + 1, fenced := true)
        case Unfencing(_) => noted.(fenced := false)
        case Limiting(_) => noted.(generation := 2)
        case _ => noted
  }

  // ---- one request ----------------------------------------------------------

  lemma AsksValid(op: Op)
    requires Numbered1(op)
    ensures Check(Asks(op)).Ok? && PayloadMatches(Asks(op).kind, Asks(op).payload) && Recordable(Asks(op)) && Decodable(Asks(op)) && Encodable(Asks(op))
    ensures Durable(Asks(op).kind) <==> !op.Marking?
    ensures !op.Declaring? ==> !Asks(op).kind.DeclareQueue? && Asks(op).queue == 1 && Asks(op).attempt == Attempt(1, op.k)
  {
  }

  /** Live, moreover, the sender is accepted and the epoch is the current one. */
  predicate Timely(t: State, r: Request, replaying: bool) {
    replaying || (r.expectedEpoch == t.epoch && Provenances.Classify(t.publishers, r.provenance, MAX_PUBLISHERS).Accepted?)
  }

  lemma OwnerHolds(required: Capability)
    requires required in EVERYTHING || required.Nothing?
    ensures Authorities.Holds(Authorities.CapabilitiesOf([Grant(1, EVERYTHING)], 1), required)
  {
    hide Authorities.CapabilitiesOf;
    Laws.FirstGrantDecides([Grant(1, EVERYTHING)], 1, 0);
  }

  lemma AdmittedExactly(c: Config, t: State, lot: Lot, op: Op, replaying: bool)
    requires Lone(t, lot) && !op.Declaring? && Numbered1(op) && Timely(t, Asks(op), replaying)
    ensures Admitted(c, t, t.queues[1], Asks(op), replaying) <==> Takes(lot, op)
  {
    hide Authorities.Authorize, Authorities.CapabilitiesOf, Memos.Find, Provenances.Classify, Authorities.Holds;
    var q, r := t.queues[1], Asks(op);
    HeldMentions(q.memo, r.attempt);
    MemoLog.FindSpec(q.memo, r.attempt);
    OwnerHolds(Required(r.kind));
    Laws.AuthorizationIsExact(t.resources[1].authority, 1, Required(r.kind), t.epoch, q.flags, q.lifecycle);
  }

  lemma PerformOn(c: Config, t: State, lot: Lot, op: Op, now: int)
    requires Lone(t, lot) && !op.Declaring? && Takes(lot, op)
    ensures PayloadMatches(Asks(op).kind, Asks(op).payload)
    ensures var w := Perform(c, EnvAt(t, t.queues[1], now), t.queues[1], Asks(op));
      && w.Done? && QueueIs(w.queue, After(c.limits.maxMemo, lot, op).(held := lot.held))
      && t.ids.fence + w.tokens == After(c.limits.maxMemo, lot, op).token
  {
    hide Pushed;
  }

  lemma QueueStays(q: Queue, next: Queue, lot: Lot, held: seq<Attempt>)
    requires QueueIs(q, lot) && SameDurable(q, next) && AttemptsOf(next.memo) == held
    ensures QueueIs(next, lot.(held := held))
  {
  }

  lemma SiteStays(c: Config, t: State, r: Request, clock: int, io: Io, replaying: bool)
    requires Site(t)
    ensures Site(Apply(c, t, r, clock, io, replaying).state)
  {
    hide Apply, Heard, Journalled;
    ApplyRest(c, t, r, clock, io, replaying);
  }

  lemma WorkOn(c: Config, t: State, lot: Lot, op: Op, clock: int, io: Io, replaying: bool)
    requires c.hasJournal && io.Good? && Lone(t, lot) && !op.Declaring? && Numbered1(op) && Timely(t, Asks(op), replaying)
    ensures var reply := Apply(c, t, Asks(op), clock, io, replaying);
      Lone(reply.state, After(c.limits.maxMemo, lot, op)) && (reply.verdict.Took? <==> Takes(lot, op))
  {
    hide Apply, Site, Admitted, Perform, Noted, After, QueueIs, Asks, Check, Recordable, PayloadMatches, QueuesAfter, Counted, EpochsAgree, SameDurable,
      Takes, Drawn, Timely, Pushed;
    var r, reply := Asks(op), Apply(c, t, Asks(op), clock, io, replaying);
    var q := t.queues[1];
    AsksValid(op);
    SiteOpen(t);
    LoneCounted(t, lot);
    CountedNumbered(t);
    SiteStays(c, t, r, clock, io, replaying);
    ApplyQueues(c, t, r, clock, io, replaying);
    Names.ApplyNames(c, t, r, clock, io, replaying);
    ApplyMemos(c, t, r, clock, io, replaying);
    NotedPushes(c.limits.maxMemo, q.memo, reply.state.queues[1].memo, r.attempt);
    OnlyOne(c, t, r, replaying, reply);
    AdmittedExactly(c, t, lot, op, replaying);
    HeldAfter(c.limits.maxMemo, lot, op, q);
    if Takes(lot, op) {
      AdmittedTurn(c, t, r, clock, io, replaying);
      PerformOn(c, t, lot, op, reply.state.watermark);
      var w := Perform(c, EnvAt(t, q, reply.state.watermark), q, r);
      QueueStays(w.queue, reply.state.queues[1], After(c.limits.maxMemo, lot, op).(held := lot.held), AttemptsOf(reply.state.queues[1].memo));
    } else {
      Unadmitted(c, t, r, replaying, reply);
      ApplyTokens(c, t, r, clock, io, replaying);
      KeptDurable(c, r, q, reply.state.queues[1]);
      QueueStays(q, reply.state.queues[1], lot, AttemptsOf(reply.state.queues[1].memo));
    }
  }

  lemma SiteOpen(t: State)
    requires Site(t)
    ensures !t.shuttingDown
  {
  }

  lemma HeldAfter(capacity: nat, lot: Lot, op: Op, q: Queue)
    requires !op.Declaring? && QueueIs(q, lot)
    ensures AttemptsOf(q.memo) == lot.held
    ensures After(capacity, lot, op).held == Pushed(lot.held, Attempt(1, op.k), capacity)
    ensures !Takes(lot, op) ==> After(capacity, lot, op) == lot.(held := Pushed(lot.held, Attempt(1, op.k), capacity))
  {
    hide Pushed;
  }

  lemma OnlyOne(c: Config, t: State, r: Request, replaying: bool, reply: Reply)
    requires QueuesAfter(c, t, r, replaying, reply) && !r.kind.DeclareQueue? && t.queues.Keys == {1}
    ensures reply.state.queues.Keys == {1}
  {
    hide Handled, HasTarget, CheckDeclaration, Check, Remembered;
    HandledPresent(c, t, r, replaying, reply, 1);
  }

  lemma Unadmitted(c: Config, t: State, r: Request, replaying: bool, reply: Reply)
    requires QueuesAfter(c, t, r, replaying, reply) && !r.kind.DeclareQueue? && r.queue == 1 && 1 in t.queues
    requires !Admitted(c, t, t.queues[1], r, replaying)
    ensures !reply.verdict.Took? && 1 in reply.state.queues && Kept(c, r, t.queues[1], reply.state.queues[1])
  {
    hide Admitted, Perform, Remembered, PayloadMatches, Kept, Installed;
    assert Handled(c, t, r, replaying, reply, 1);
  }

  /** Declaring the queue again changes nothing. */
  lemma DeclareAgain(c: Config, t: State, lot: Lot, m: Moment)
    requires c.hasJournal && m.io.Good? && Lone(t, lot)
    ensures var reply := Apply(c, t, First(), m.clock, m.io, true); Lone(reply.state, lot) && !reply.verdict.Took?
  {
    hide Apply, Site, QueueIs, Counted, EpochsAgree, SameDurable, SameAttempts;
    LoneCounted(t, lot);
    AsksValid(Declaring);
    RecalledNotTaken(c, t, First(), m);
    ReplayRecalled(c, t, First(), m);
    SiteStays(c, t, First(), m.clock, m.io, true);
    var next := Apply(c, t, First(), m.clock, m.io, true).state;
    SameAttemptsHeld(t.queues[1].memo, next.queues[1].memo);
    LotHeld(t.queues[1], lot);
    QueueStays(t.queues[1], next.queues[1], lot, lot.held);
  }

  lemma LotHeld(q: Queue, lot: Lot)
    requires QueueIs(q, lot)
    ensures AttemptsOf(q.memo) == lot.held && lot.(held := lot.held) == lot
  {
  }

  function FirstLot(capacity: nat): Lot {
    Lot(0, false, 1, Pushed([], Attempt(1, 1), capacity))
  }

  lemma VacantTakes(c: Config, t: State)
    requires Roomy(c) && Vacant(t)
    ensures CheckDeclaration(c, t, First(), true) == Took
  {
    hide Authorities.Authorize, Authorities.CapabilitiesOf, Authorities.Holds;
    OwnerHolds(Capability.DeclareQueues);
    Laws.AuthorizationIsExact(t.resources[1].authority, 1, Capability.DeclareQueues, t.epoch, Flags(false, false), Active);
    assert QueuesOf(t.queues, 1) == {};
  }

  lemma NewQueueIs(c: Config, now: int, durable: bool)
    ensures QueueIs(Remembered(c, NewQueue(First(), 1, now), First(), Ok, durable), FirstLot(c.limits.maxMemo))
  {
    hide EffectOf;
    var q := NewQueue(First(), 1, now);
    var next := Remembered(c, q, First(), Ok, durable);
    RememberedNotes(c, q, First(), Ok, durable);
    NotedPushes(c.limits.maxMemo, q.memo, next.memo, Attempt(1, 1));
    assert AttemptsOf(q.memo) == [];
  }

  lemma DeclareOnVacant(c: Config, t: State, m: Moment)
    requires Roomy(c) && m.io.Good? && Vacant(t)
    ensures var reply := Apply(c, t, First(), m.clock, m.io, true); Lone(reply.state, FirstLot(c.limits.maxMemo)) && reply.verdict.Took?
  {
    hide Apply, Site, QueueIs, CheckDeclaration, Check, Remembered, Encodable, Handled, Heard, Journalled;
    AsksValid(Declaring);
    VacantTakes(c, t);
    SiteOpen(t);
    DeclareTakes(c, t, First(), m.clock, m.io);
    var reply := Apply(c, t, First(), m.clock, m.io, true);
    ApplyQueues(c, t, First(), m.clock, m.io, true);
    Names.ApplyNames(c, t, First(), m.clock, m.io, true);
    ApplyTokens(c, t, First(), m.clock, m.io, true);
    SiteStays(c, t, First(), m.clock, m.io, true);
    NewQueueIs(c, reply.state.watermark, c.hasJournal);
    assert reply.state.queues.Keys == {1};
  }

  // ---- whole replays --------------------------------------------------------

  /** What replaying the requests leaves, if the first is the declaration. */
  function LotOf(capacity: nat, ops: seq<Op>): Lot {
    if |ops| <= 1 then FirstLot(capacity) else After(capacity, LotOf(capacity, ops[..|ops| - 1]), ops[|ops| - 1])
  }

  /** The requests that replay commits again. */
  function TakenOf(capacity: nat, ops: seq<Op>): seq<Op> {
    if |ops| <= 1 then ops
    else
      var before, op := ops[..|ops| - 1], ops[|ops| - 1];
      TakenOf(capacity, before) + if !op.Declaring? && !op.Marking? && Takes(LotOf(capacity, before), op) then [op] else []
  }

  predicate Script(ops: seq<Op>) {
    |ops| >= 1 && ops[0].Declaring? && forall k :: 0 <= k < |ops| ==> Numbered1(ops[k])
  }

  /** Replay takes the request and commits it again. */
  predicate Again(lot: Lot, op: Op) {
    !op.Declaring? && !op.Marking? && Takes(lot, op)
  }

  lemma ScriptStep(c: Config, t: State, lot: Lot, op: Op, m: Moment)
    requires c.hasJournal && m.io.Good? && Lone(t, lot) && Numbered1(op)
    ensures var reply := Apply(c, t, Asks(op), m.clock, m.io, true);
      Lone(reply.state, After(c.limits.maxMemo, lot, op)) && (reply.verdict.Took? && Durable(Asks(op).kind) <==> Again(lot, op))
  {
    hide Apply, Lone, Asks, Takes, Durable, Numbered1, After;
    AsksValid(op);
    if op.Declaring? {
      DeclaringAsks();
      DeclareAgain(c, t, lot, m);
      AfterDeclaring(c.limits.maxMemo, lot);
    } else {
      ReplayTimely(t, Asks(op));
      WorkOn(c, t, lot, op, m.clock, m.io, true);
    }
  }

  lemma TakenStep(capacity: nat, ops: seq<Op>)
    requires |ops| >= 2
    ensures var before, op := ops[..|ops| - 1], ops[|ops| - 1];
      AskAll(TakenOf(capacity, ops)) == AskAll(TakenOf(capacity, before)) + if Again(LotOf(capacity, before), op) then [Asks(op)] else []
  {
    hide Asks, Takes, LotOf;
    var before, op := ops[..|ops| - 1], ops[|ops| - 1];
    AskMore(TakenOf(capacity, before), if Again(LotOf(capacity, before), op) then [op] else []);
    assert AskAll([op]) == [Asks(op)] && AskAll([]) == [];
  }

  lemma {:induction false} ScriptReplays(c: Config, b: State, ops: seq<Op>, feed: seq<Moment>)
    requires Roomy(c) && Vacant(b) && GoodFeed(feed) && Script(ops)
    ensures Lone(Replay(c, b, AskAll(ops), feed), LotOf(c.limits.maxMemo, ops))
    ensures TakenIn(c, b, AskAll(ops), feed) == AskAll(TakenOf(c.limits.maxMemo, ops))
  {
    hide Apply, Vacant, Lone, Asks, After, FirstLot, Durable, Numbered1, Replay, TakenIn, TakenOf, Again;
    var n := |ops| - 1;
    var before := AskAll(ops[..n]);
    var m := MomentAt(feed, n);
    assert AskAll(ops) == before + [Asks(ops[n])];
    ReplayOne(c, b, before, Asks(ops[n]), feed);
    TakenOne(c, b, before, Asks(ops[n]), feed);
    if n == 0 {
      DeclaringAsks();
      DeclareOnVacant(c, b, m);
      NothingReplayed(c, b, feed, ops);
    } else {
      ScriptReplays(c, b, ops[..n], feed);
      ScriptStep(c, Replay(c, b, before, feed), LotOf(c.limits.maxMemo, ops[..n]), ops[n], m);
      TakenStep(c.limits.maxMemo, ops);
    }
  }

  lemma NothingReplayed(c: Config, b: State, feed: seq<Moment>, ops: seq<Op>)
    requires |ops| == 1
    ensures Replay(c, b, AskAll(ops[..0]), feed) == b && TakenIn(c, b, AskAll(ops[..0]), feed) == [] && TakenOf(c.limits.maxMemo, ops) == ops
  {
    assert AskAll(ops[..0]) == [];
  }

  lemma ReplayTimely(t: State, r: Request)
    ensures Timely(t, r, true)
  {
  }

  lemma AfterDeclaring(capacity: nat, lot: Lot)
    ensures After(capacity, lot, Declaring) == lot
  {
  }

  lemma DeclaringAsks()
    ensures Asks(Declaring) == First() && Durable(First().kind)
  {
  }

  // ---- the journal of the runs ----------------------------------------------

  /** The journal holds the house and these commits and markers. */
  predicate Booked(s: State, ops: seq<Op>) {
    && Flushed(s) && Stored(s).queues == map[] && Stored(s).resources == map[1 := House2([])] && Commits(s) == AskAll(ops)
    && Stored(s).epoch == s.epoch
  }

  /** The one publisher was heard up to that sequence. */
  predicate HeardTo(table: Provenances.Table, n: nat) {
    table.Keys <= {1} && (1 in table ==> table[1] == Provenances.Publisher(1, Boot(1, 1), 1, table[1].last) && table[1].last <= n)
  }

  lemma HeardNext(table: Provenances.Table, n: nat, k: nat)
    requires HeardTo(table, n) && k > n
    ensures Provenances.Classify(table, Sender(k), MAX_PUBLISHERS).Accepted? && HeardTo(Provenances.Observe(table, Sender(k)), k)
  {
    if 1 !in table {
      assert table.Keys == {};
      assert |table| == |table.Keys|;
    }
  }

  ghost predicate Stage(c: Config, s: State, ops: seq<Op>, lot: Lot, n: nat) {
    Inv(c, s) && Lone(s, lot) && Booked(s, ops) && HeardTo(s.publishers, n)
  }

  lemma DeclaredBooked(c: Config, boot: Boot)
    ensures Booked(Declared1(c, boot, []), [Declaring])
  {
    hide StorableResource, StorableQueue, Restored, Decodable, Load, House2, House3, First, TheQueue, Filled;
    TopologyReads(boot);
    AsksValid(Declaring);
    DeclaringAsks();
    var s3 := Filled(boot, []);
    LoggedReads(s3, BeginAttempt(First()));
    var s4 := Logged(s3, BeginAttempt(First()));
    LoggedReads(s4, CommitMutation(First()));
    assert Stored(Declared1(c, boot, [])) == Stored(Logged(s4, CommitMutation(First())));
    assert AskAll([Declaring]) == [First()];
    FilledFlushed(boot);
  }

  lemma FilledFlushed(boot: Boot)
    ensures Flushed(Filled(boot, [])) && Filled(boot, []).epoch == 1
  {
  }

  lemma OpeningStage(c: Config, boot: Boot)
    requires Roomy(c)
    ensures Exec(c, Start(c, boot), Opening([])) == Declared1(c, boot, [])
    ensures Stage(c, Declared1(c, boot, []), [Declaring], FirstLot(c.limits.maxMemo), 4) && Declared1(c, boot, []).plans == map[]
  {
    hide Inv, Names.NameInv, Exec, Start, Opening, Booked, TheQueue, QueueIs, Pushed, Remembered;
    OpeningRuns(c, boot, []);
    OpeningInv(c, boot, []);
    DeclaredBooked(c, boot);
    NewQueueIs(c, 0, true);
    DeclaredSite(c, boot);
  }

  lemma DeclaredSite(c: Config, boot: Boot)
    ensures var s := Declared1(c, boot, []);
      && Site(s) && s.ids.fence == 0 && s.ids.queue == 2 && HeardTo(s.publishers, 4) && s.queues == map[1 := TheQueue(c)]
      && TheQueue(c) == Remembered(c, NewQueue(First(), 1, 0), First(), Ok, true)
  {
    hide Remembered, NewQueue;
  }

  // ---- live calls -----------------------------------------------------------

  lemma LiveBooked(c: Config, s: State, ops: seq<Op>, op: Op, clock: int)
    requires c.hasJournal && Counted(s) && Booked(s, ops) && Numbered1(op) && !op.Marking?
    requires Apply(c, s, Asks(op), clock, Good, false).verdict.Took?
    ensures Booked(Apply(c, s, Asks(op), clock, Good, false).state, ops + [op])
  {
    hide Apply, Counted, Asks, Load, Heard, SameButCount, Encodable, Durable, Decodable;
    var r := Asks(op);
    var reply := Apply(c, s, r, clock, Good, false);
    AsksValid(op);
    ApplyRest(c, s, r, clock, Good, false);
    var j, k := s.journal, reply.state.journal;
    assert k.records == k.records[..|j.records|] + Added(j, k);
    LoadCommit(j.records, j.headerEpoch, r);
    LoadMarker(j.records, j.headerEpoch, r);
    AskMore(ops, [op]);
    assert AskAll([op]) == [r];
  }

  /** A live request of the run, taken. */
  lemma LiveStage(c: Config, s: State, ops: seq<Op>, lot: Lot, n: nat, op: Op)
    requires c.hasJournal && Stage(c, s, ops, lot, n) && Numbered1(op) && !op.Declaring? && !op.Marking? && Takes(lot, op)
    requires op.k + 4 > n && Asks(op).expectedEpoch == s.epoch
    ensures var next := Step(c, s, Mutate(Asks(op), 0, Good)).state;
      Stage(c, next, ops + [op], After(c.limits.maxMemo, lot, op), op.k + 4) && next.plans == s.plans && next.epoch == s.epoch
  {
    hide Step, Inv, Apply, Lone, Booked, After, Takes, HeardTo, Counted, EpochsAgree, Journalled, SameButCount, Timely;
    var e := Mutate(Asks(op), 0, Good);
    MutateIsApply(c, s, e);
    Epochs.InvCounted(c, s);
    HeardNext(s.publishers, n, op.k + 4);
    SenderOf(op);
    LiveTimely(s, Asks(op));
    WorkOn(c, s, lot, op, 0, Good, false);
    LiveBooked(c, s, ops, op, 0);
    ApplyRest(c, s, Asks(op), 0, Good, false);
    StepInv(c, s, e);
  }

  lemma SenderOf(op: Op)
    requires !op.Declaring? && !op.Marking?
    ensures Asks(op).provenance == Sender(op.k + 4)
  {
  }

  lemma LiveTimely(s: State, r: Request)
    requires r.expectedEpoch == s.epoch && Provenances.Classify(s.publishers, r.provenance, MAX_PUBLISHERS).Accepted?
    ensures Timely(s, r, false)
  {
  }

  // ---- restarts -------------------------------------------------------------

  lemma BaseVacant(s: State, ops: seq<Op>, boot: Boot)
    requires Booked(s, ops)
    ensures Vacant(Base(Stored(s), s.journal, boot))
  {
    hide AllDead, QueuesOf, NamesOf, Load;
    var l := Stored(s);
    NothingIndexed(AllAdopted(l.resources, NextEpoch(l.epoch)));
    assert Tokens(l.queues) == {};
    HouseShape();
    OneResource(AllAdopted(l.resources, NextEpoch(l.epoch)), l.queues);
  }

  lemma HouseShape()
    ensures var r := House2([]);
      && r.id == 1 && r.classes == [TheClass([], 1)] && r.authority.owner == 1 && r.authority.grants == [Grant(1, EVERYTHING)]
  {
  }

  lemma OneResource(resources: map<Id, Resource>, queues: map<Id, Queue>)
    requires 1 in resources && resources[1].id == 1
    ensures FreshIds(resources, queues).resource >= 2
  {
    hide FreshIds;
    FreshAbove(resources, queues);
  }

  /** Recovery of the run's journal: what replaying it leaves, and the journal
      with what was taken again behind it. */
  lemma RestartStage(c: Config, s: State, ops: seq<Op>, lot: Lot, n: nat, e: Event)
    requires Roomy(c) && Stage(c, s, ops, lot, n) && Script(ops) && e.Restart? && GoodFeed(e.feed) && s.epoch < COUNTER_MAX
    ensures var reply, capacity := Step(c, s, e), c.limits.maxMemo;
      && reply.verdict.Took? && Stage(c, reply.state, ops + TakenOf(capacity, ops), LotOf(capacity, ops), 0)
      && reply.state.epoch == s.epoch + 1
  {
    hide Step, Inv, Load, Base, Replay, Distrust, Rebuild, Announce, Lone, Vacant, TakenIn, TakenOf, LotOf, Names.NameInv;
    var capacity, l := c.limits.maxMemo, Stored(s);
    var base := Base(l, s.journal, e.boot);
    RestartOfFlushed(c, s, e.keep, e.boot, e.feed, e.clock);
    BaseVacant(s, ops, e.boot);
    ScriptReplays(c, base, ops, e.feed);
    var t := Replay(c, base, l.order, e.feed);
    RestartReads(c, s, e);
    AskMore(ops, TakenOf(capacity, ops));
    RestartInv(c, s, e);
    InvEpoch(c, s);
    FinishLone(c, t, LotOf(capacity, ops), l.outstanding, e.clock);
    RestartPublishers(c, s, e);
  }

  lemma InvEpoch(c: Config, s: State)
    requires Inv(c, s)
    ensures s.epoch >= 1
  {
    hide Counted, AllSound, RecordsSound, EpochStored;
  }

  lemma RestartPublishers(c: Config, s: State, e: Event)
    requires c.hasJournal && Flushed(s) && e.Restart? && Step(c, s, e).verdict.Took?
    ensures Step(c, s, e).state.publishers == map[] && Step(c, s, e).state.plans == map[]
  {
    hide Step, Load, Apply, NamesOf, FreshIds, QueuesOf, AllDistrusted, AllAdopted, AllCounted;
    RestartOfFlushed(c, s, e.keep, e.boot, e.feed, e.clock);
    ReplayUnheard(c, Base(Stored(s), s.journal, e.boot), Commits(s), e.feed);
  }

  lemma {:induction false} ReplayUnheard(c: Config, b: State, order: seq<Request>, feed: seq<Moment>)
    ensures Replay(c, b, order, feed).publishers == b.publishers && Replay(c, b, order, feed).plans == b.plans
  {
    hide Apply, Journalled, SameButCount;
    if order != [] {
      var n := |order| - 1;
      ReplayUnheard(c, b, order[..n], feed);
      ApplyRest(c, Replay(c, b, order[..n], feed), order[n], MomentAt(feed, n).clock, MomentAt(feed, n).io, true);
    }
  }

  lemma FinishLone(c: Config, t: State, lot: Lot, outstanding: map<Attempt, Request>, clock: int)
    requires Lone(t, lot)
    ensures var done := Announce(Rebuild(Distrust(t, outstanding))); Lone(done.(watermark := Later(done.watermark, clock)), lot)
  {
    hide Site, QueueIs, Orphaned, Distrusted, Rebuild;
    var mid := Distrust(t, outstanding);
    var next := Announce(Rebuild(mid));
    FinishQueue(t.queues[1], Orphaned(outstanding, 1), lot);
    assert mid.queues.Keys == {1} && mid.queues[1] == Distrusted(t.queues[1], Orphaned(outstanding, 1));
    FinishIndexes(mid);
    FinishSite(t, mid, Later(next.watermark, clock));
    RebuildRest(mid);
  }

  lemma FinishQueue(q: Queue, orphaned: bool, lot: Lot)
    requires QueueIs(q, lot)
    ensures var p := Distrusted(q, orphaned); QueueIs(p, lot) && p.def.id == 1 && KeyOf(p) == NameKey(1, [113]) && p.fence.token == lot.token
  {
  }

  lemma FinishSite(t: State, mid: State, watermark: int)
    requires Site(t) && mid == t.(queues := mid.queues)
    ensures Site(Announce(Rebuild(mid)).(watermark := watermark))
  {
    hide NamesOf, QueuesOf;
    OneResource(mid.resources, mid.queues);
  }

  lemma FinishIndexes(s: State)
    requires s.queues.Keys == {1} && s.queues[1].def.id == 1 && KeyOf(s.queues[1]) == NameKey(1, [113])
    ensures Rebuild(s).names == map[NameKey(1, [113]) := 1] && Rebuild(s).ids.queue == 2 && Rebuild(s).ids.fence == s.queues[1].fence.token
  {
    hide AllCounted, NamesOf, KeyOf, Names.DistinctKeys, Names.Faithful;
    OneName(s.queues);
    OneNumber(s.resources, s.queues);
  }

  lemma OneName(queues: map<Id, Queue>)
    requires queues.Keys == {1} && queues[1].def.id == 1 && KeyOf(queues[1]) == NameKey(1, [113])
    ensures NamesOf(queues) == map[NameKey(1, [113]) := 1]
  {
    hide NamesOf, KeyOf;
    Names.NamesOfFaithful(queues);
    Names.FaithfulUnique(NamesOf(queues), map[NameKey(1, [113]) := 1], queues);
  }

  lemma SoleMember(m: nat, ids: set<nat>)
    requires m in ids && forall i :: i in ids ==> i == m
    ensures Extremes.Greatest(ids) == m
  {
    hide Extremes.Greatest;
  }

  lemma OneNumber(resources: map<Id, Resource>, queues: map<Id, Queue>)
    requires queues.Keys == {1} && queues[1].def.id == 1
    ensures FreshIds(resources, queues).queue == 2 && FreshIds(resources, queues).fence == queues[1].fence.token
  {
    hide Extremes.Greatest, Extremes.IsGreatest;
    assert 1 in queues && forall i :: i in queues ==> i == 1;
    SoleMember(queues[1].def.id, set i | i in queues :: queues[i].def.id);
    SoleMember(queues[1].fence.token, set i | i in queues :: queues[i].fence.token);
  }

  // ---- a fence drawn anew ---------------------------------------------------

  lemma LotMore(capacity: nat, ops: seq<Op>, op: Op)
    requires |ops| >= 1
    ensures LotOf(capacity, ops + [op]) == After(capacity, LotOf(capacity, ops), op)
    ensures TakenOf(capacity, ops + [op]) == TakenOf(capacity, ops) + if Again(LotOf(capacity, ops), op) then [op] else []
  {
    hide After, Takes;
    assert (ops + [op])[..|ops|] == ops;
  }

  function Live(op: Op): Event {
    Mutate(Asks(op), 0, Good)
  }

  /** Declare, fence, unfence, fence. */
  function Fences(): seq<Event> {
    Opening([]) + [Live(Fencing(2))] + [Live(Unfencing(3))] + [Live(Fencing(4))]
  }

  const FENCE_OPS: seq<Op> := [Declaring] + [Fencing(2)] + [Unfencing(3)] + [Fencing(4)]

  lemma FenceLots()
    ensures LotOf(1, FENCE_OPS) == Lot(2, true, 1, [Attempt(1, 4)]) && TakenOf(1, FENCE_OPS) == FENCE_OPS
    ensures Takes(FirstLot(1), Fencing(2)) && Takes(Lot(1, true, 1, [Attempt(1, 2)]), Unfencing(3)) && Takes(Lot(1, false, 1, [Attempt(1, 3)]), Fencing(4))
    ensures After(1, FirstLot(1), Fencing(2)) == Lot(1, true, 1, [Attempt(1, 2)])
    ensures After(1, Lot(1, true, 1, [Attempt(1, 2)]), Unfencing(3)) == Lot(1, false, 1, [Attempt(1, 3)])
    ensures After(1, Lot(1, false, 1, [Attempt(1, 3)]), Fencing(4)) == Lot(2, true, 1, [Attempt(1, 4)])
  {
    hide LotOf, TakenOf;
    assert LotOf(1, [Declaring]) == FirstLot(1) && TakenOf(1, [Declaring]) == [Declaring] by {
      OneOp(1);
    }
    LotMore(1, [Declaring], Fencing(2));
    LotMore(1, [Declaring] + [Fencing(2)], Unfencing(3));
    LotMore(1, [Declaring] + [Fencing(2)] + [Unfencing(3)], Fencing(4));
  }

  lemma OneOp(capacity: nat)
    ensures LotOf(capacity, [Declaring]) == FirstLot(capacity) && TakenOf(capacity, [Declaring]) == [Declaring]
  {
  }

  lemma FenceLotsAgain()
    ensures LotOf(1, FENCE_OPS + FENCE_OPS) == Lot(3, true, 1, [Attempt(1, 4)])
  {
    hide LotOf, TakenOf;
    FenceLots();
    var ops := FENCE_OPS;
    LotMore(1, ops, Declaring);
    LotMore(1, ops + [Declaring], Fencing(2));
    LotMore(1, ops + [Declaring] + [Fencing(2)], Unfencing(3));
    LotMore(1, ops + [Declaring] + [Fencing(2)] + [Unfencing(3)], Fencing(4));
    assert ops + [Declaring] + [Fencing(2)] + [Unfencing(3)] + [Fencing(4)] == ops + FENCE_OPS;
  }

  lemma FencesRun(c: Config, boot: Boot)
    requires Roomy(c) && c.limits.maxMemo == 1
    ensures var s := Exec(c, Start(c, boot), Fences());
      Stage(c, s, FENCE_OPS, Lot(2, true, 1, [Attempt(1, 4)]), 8) && s.epoch == 1
  {
    hide Step, Start, Exec, Opening, Stage, After, Takes, LotOf, TakenOf, Asks, FirstLot;
    var first := Start(c, boot);
    FenceLots();
    OpeningStage(c, boot);
    var s0 := Exec(c, first, Opening([]));
    AskedEpochs(s0, 2);
    AskedEpochs(s0, 3);
    AskedEpochs(s0, 4);
    OpenedEpoch(c, boot);
    LiveStage(c, s0, [Declaring], FirstLot(1), 4, Fencing(2));
    ExecOne(c, first, Opening([]), Live(Fencing(2)));
    var s1 := Step(c, s0, Live(Fencing(2))).state;
    LiveStage(c, s1, [Declaring] + [Fencing(2)], Lot(1, true, 1, [Attempt(1, 2)]), 6, Unfencing(3));
    ExecOne(c, first, Opening([]) + [Live(Fencing(2))], Live(Unfencing(3)));
    var s2 := Step(c, s1, Live(Unfencing(3))).state;
    LiveStage(c, s2, [Declaring] + [Fencing(2)] + [Unfencing(3)], Lot(1, false, 1, [Attempt(1, 3)]), 7, Fencing(4));
    ExecOne(c, first, Opening([]) + [Live(Fencing(2))] + [Live(Unfencing(3))], Live(Fencing(4)));
  }

  lemma AskedEpochs(s: State, k: nat)
    ensures Asks(Fencing(k)).expectedEpoch == 1 && Asks(Unfencing(k)).expectedEpoch == 1 && Asks(Limiting(k)).expectedEpoch == 2
  {
  }

  lemma OpenedEpoch(c: Config, boot: Boot)
    ensures Declared1(c, boot, []).epoch == 1
  {
    hide TheQueue, House3;
  }

  /** With room for one attempt in the memo: fence, unfence and fence a queue, then
      crash and recover twice. The queue is fenced all along and nobody fences it,
      yet the second recovery changes its token: replay raises the forgotten fence
      anew. */
  lemma FenceTokenRedrawn(c: Config, boot: Boot, one: Event, two: Event)
    requires Roomy(c) && c.limits.maxMemo == 1 && one.Restart? && two.Restart? && GoodFeed(one.feed) && GoodFeed(two.feed)
    ensures var s := Exec(c, Start(c, boot), Fences());
      var first, second := Step(c, s, one), Step(c, Step(c, s, one).state, two);
      && first.verdict.Took? && second.verdict.Took?
      && s.queues.Keys == first.state.queues.Keys == second.state.queues.Keys == {1}
      && s.queues[1].flags.fenced && first.state.queues[1].flags.fenced && second.state.queues[1].flags.fenced
      && s.queues[1].fence.token == first.state.queues[1].fence.token == 2 && second.state.queues[1].fence.token == 3
  {
    hide Step, Start, Exec, Fences, Inv, Booked, HeardTo, Site, LotOf, TakenOf, AttemptsOf;
    var s := Exec(c, Start(c, boot), Fences());
    FencesRun(c, boot);
    FenceLots();
    FenceLotsAgain();
    RestartStage(c, s, FENCE_OPS, Lot(2, true, 1, [Attempt(1, 4)]), 8, one);
    var s' := Step(c, s, one).state;
    RestartStage(c, s', FENCE_OPS + FENCE_OPS, Lot(2, true, 1, [Attempt(1, 4)]), 0, two);
  }

  // ---- a definition lost ----------------------------------------------------

  /** The plan reserved on the declared queue. */
  function ThePlan(c: Config, boot: Boot): Plan {
    var def := TheQueue(c).def;
    Plan(Attempt(1, 5), 1, 1, 1, def.cls, Policies.Resolve(c.policy, def.thresholds, def.cls.id), 1, 1, 0)
  }

  function Reserving(): Event {
    PlanApply(1, 1, 1, Sender(5), 0, Good)
  }

  lemma ReservationPasses(c: Config, s: State, lot: Lot, n: nat)
    requires Lone(s, lot) && !lot.fenced && lot.generation == 1 && s.healthy && s.plans == map[] && HeardTo(s.publishers, n) && n < 5 && c.limits.maxPending >= 1
    ensures CheckReservation(c, s, 1, 1, 1, Sender(5)) == Ok
  {
    hide Authorities.Authorize, Authorities.CapabilitiesOf, Authorities.Holds, Provenances.Classify, AttemptsOf;
    HeardNext(s.publishers, n, 5);
    OwnerHolds(AcknowledgeBackends);
    Laws.AuthorizationIsExact(s.resources[1].authority, 1, AcknowledgeBackends, s.epoch, s.queues[1].flags, s.queues[1].lifecycle);
  }

  /** What a reservation changes: journal, plans, senders heard and time. */
  lemma ReserveStage(c: Config, boot: Boot)
    requires Roomy(c) && c.limits.maxPending >= 1
    ensures var s := Declared1(c, boot, []);
      var next := Step(c, s, Reserving()).state;
      && Stage(c, next, [Declaring], FirstLot(c.limits.maxMemo), 5) && next.epoch == 1
      && next.plans == map[Attempt(1, 5) := ThePlan(c, boot)]
  {
    hide Apply, DeclareResource, GrantCapabilities, DeclareClass, DeclarePool, AddBackend, MarkDead, AdvanceEpoch, InvalidateEvidence, Refresh, Explain,
      CommitPlan, AbortPlan, Compact, Shutdown, Recover, Inv, CheckReservation, Provenances.Observe, Policies.Resolve, TheQueue, Booked, HeardTo,
      House3, FirstLot, Site, QueueIs, First;
    var s := Declared1(c, boot, []);
    OpeningStage(c, boot);
    assert Unfold(c, s, Reserving());
    FirstLotShape(c.limits.maxMemo);
    ReservationPasses(c, s, FirstLot(c.limits.maxMemo), 4);
    HeardNext(s.publishers, 4, 5);
    PlanShape(c, boot);
    var next := Step(c, s, Reserving()).state;
    assert next == s.(publishers := Provenances.Observe(s.publishers, Sender(5)), journal := next.journal, plans := next.plans);
    ReserveBooked(s, next, AckRequest(ThePlan(c, boot), NOT_APPLIED, 1, Sender(5)));
    LoneSame(s, next, FirstLot(c.limits.maxMemo));
    StepInv(c, s, Reserving());
  }

  lemma FirstLotShape(capacity: nat)
    ensures !FirstLot(capacity).fenced && FirstLot(capacity).generation == 1
  {
  }

  lemma PlanShape(c: Config, boot: Boot)
    ensures var s := Declared1(c, boot, []);
      s.queues == map[1 := TheQueue(c)] && s.plans == map[] && s.epoch == 1 && s.healthy && NewPlan(c, s, 1, 1, Sender(5), 0) == ThePlan(c, boot)
  {
    hide Policies.Resolve, EffectOf, Memos.Remember;
  }

  lemma ReserveBooked(s: State, next: State, r: Request)
    requires Booked(s, [Declaring]) && next.epoch == s.epoch
    requires next.journal == s.journal.(records := s.journal.records + [BeginAttempt(r)], synced := |s.journal.records| + 1)
    ensures Booked(next, [Declaring])
  {
    hide Load;
    LoadNeutral(s.journal.records, s.journal.headerEpoch, BeginAttempt(r));
  }

  lemma LoneSame(s: State, next: State, lot: Lot)
    requires Lone(s, lot) && !next.shuttingDown && next.epoch == s.epoch && next.resources == s.resources && next.ids == s.ids
    requires next.queues == s.queues && next.names == s.names
    ensures Lone(next, lot)
  {
    hide QueueIs;
  }

  lemma AbortBooked(s: State, next: State, ops: seq<Op>)
    requires Booked(s, ops) && next.epoch == s.epoch
    requires next.journal == s.journal.(records := s.journal.records + [CommitMutation(Asks(Marking(5)))], synced := |s.journal.records| + 1)
    ensures Booked(next, ops + [Marking(5)])
  {
    hide Load, Asks, Decodable;
    AsksValid(Marking(5));
    LoadCommit(s.journal.records, s.journal.headerEpoch, Asks(Marking(5)));
    LoadMarker(s.journal.records, s.journal.headerEpoch, Asks(Marking(5)));
    AskMore(ops, [Marking(5)]);
    assert AskAll([Marking(5)]) == [Asks(Marking(5))];
  }

  lemma AbortStage(c: Config, boot: Boot, s: State, ops: seq<Op>, lot: Lot, n: nat)
    requires c.hasJournal && Stage(c, s, ops, lot, n) && Attempt(1, 5) in s.plans && s.epoch == 1
    ensures var next := Step(c, s, AbortApply(ThePlan(c, boot), 0, Good)).state; Stage(c, next, ops + [Marking(5)], lot, n) && next.epoch == 1
  {
    hide Apply, DeclareResource, GrantCapabilities, DeclareClass, DeclarePool, AddBackend, MarkDead, AdvanceEpoch, InvalidateEvidence, Refresh, Explain,
      Reserve, CommitPlan, Compact, Shutdown, Recover, Inv, Booked, HeardTo, Lone, Policies.Resolve, TheQueue, Asks;
    var e := AbortApply(ThePlan(c, boot), 0, Good);
    assert Unfold(c, s, e);
    assert AbortMarker(ThePlan(c, boot)) == Asks(Marking(5)) by {
      MarkerAsked(c, boot);
    }
    var next := Step(c, s, e).state;
    AbortBooked(s, next, ops);
    AbortLone(s, next, lot);
    StepInv(c, s, e);
  }

  lemma MarkerAsked(c: Config, boot: Boot)
    ensures AbortMarker(ThePlan(c, boot)) == Asks(Marking(5))
  {
    hide Policies.Resolve, TheQueue;
  }

  lemma AbortLone(s: State, next: State, lot: Lot)
    requires Lone(s, lot) && next == s.(journal := next.journal, plans := next.plans, watermark := next.watermark)
    ensures Lone(next, lot)
  {
    hide QueueIs;
  }

  /** Declare, reserve a plan, fence, abort the plan, unfence. */
  function Plans(c: Config, boot: Boot): seq<Event> {
    Opening([]) + [Reserving()] + [Live(Fencing(2))] + [AbortApply(ThePlan(c, boot), 0, Good)] + [Live(Unfencing(3))]
  }

  const PLAN_OPS: seq<Op> := [Declaring] + [Fencing(2)] + [Marking(5)] + [Unfencing(3)]

  const A1: Attempt := Attempt(1, 1)
  const A2: Attempt := Attempt(1, 2)
  const A3: Attempt := Attempt(1, 3)
  const A4: Attempt := Attempt(1, 4)
  const A5: Attempt := Attempt(1, 5)

  lemma PlanLots()
    ensures FirstLot(2) == Lot(0, false, 1, [A1])
    ensures Takes(Lot(0, false, 1, [A1]), Fencing(2)) && After(2, Lot(0, false, 1, [A1]), Fencing(2)) == Lot(1, true, 1, [A1, A2])
    ensures Takes(Lot(1, true, 1, [A1, A2]), Unfencing(3)) && After(2, Lot(1, true, 1, [A1, A2]), Unfencing(3)) == Lot(1, false, 1, [A2, A3])
    ensures LotOf(2, PLAN_OPS) == Lot(1, false, 1, [A5, A3]) && TakenOf(2, PLAN_OPS) == [Declaring] + [Fencing(2)] + [Unfencing(3)]
    ensures Takes(Lot(1, false, 1, [A5, A3]), Limiting(4)) && After(2, Lot(1, false, 1, [A5, A3]), Limiting(4)) == Lot(1, false, 2, [A3, A4])
  {
    hide LotOf, TakenOf;
    OneOp(2);
    LotMore(2, [Declaring], Fencing(2));
    LotMore(2, [Declaring] + [Fencing(2)], Marking(5));
    LotMore(2, [Declaring] + [Fencing(2)] + [Marking(5)], Unfencing(3));
  }

  lemma PlanLotsAgain()
    ensures LotOf(2, PLAN_OPS + ([Declaring] + [Fencing(2)] + [Unfencing(3)]) + [Limiting(4)]) == Lot(2, true, 1, [A2, A4])
  {
    hide LotOf, TakenOf;
    PlanLots();
    var ops := PLAN_OPS;
    LotMore(2, ops, Declaring);
    LotMore(2, ops + [Declaring], Fencing(2));
    LotMore(2, ops + [Declaring] + [Fencing(2)], Unfencing(3));
    assert ops + [Declaring] + [Fencing(2)] + [Unfencing(3)] == ops + ([Declaring] + [Fencing(2)] + [Unfencing(3)]);
    LotMore(2, ops + ([Declaring] + [Fencing(2)] + [Unfencing(3)]), Limiting(4));
  }

  lemma PlansRun(c: Config, boot: Boot)
    requires Roomy(c) && c.limits.maxMemo == 2 && c.limits.maxPending >= 1
    ensures var s := Exec(c, Start(c, boot), Plans(c, boot)); Stage(c, s, PLAN_OPS, Lot(1, false, 1, [A2, A3]), 7) && s.epoch == 1
  {
    hide Step, Start, Exec, Opening, Stage, After, Takes, LotOf, TakenOf, Asks, FirstLot, ThePlan;
    var first := Start(c, boot);
    PlanLots();
    OpeningStage(c, boot);
    ReserveStage(c, boot);
    AskedEpochs(first, 2);
    AskedEpochs(first, 3);
    var es := Opening([]);
    ExecOne(c, first, es, Reserving());
    es := es + [Reserving()];
    LiveStage(c, Exec(c, first, es), [Declaring], Lot(0, false, 1, [A1]), 5, Fencing(2));
    ExecOne(c, first, es, Live(Fencing(2)));
    es := es + [Live(Fencing(2))];
    var abort := AbortApply(ThePlan(c, boot), 0, Good);
    AbortStage(c, boot, Exec(c, first, es), [Declaring] + [Fencing(2)], Lot(1, true, 1, [A1, A2]), 6);
    ExecOne(c, first, es, abort);
    es := es + [abort];
    LiveStage(c, Exec(c, first, es), [Declaring] + [Fencing(2)] + [Marking(5)], Lot(1, true, 1, [A1, A2]), 6, Unfencing(3));
    ExecOne(c, first, es, Live(Unfencing(3)));
  }

  /** With room for two attempts and a plan's marker between a fence and its
      unfence: recover, change the limits, crash and recover again. The second
      replay raises the forgotten fence, skips the remembered unfence and so
      refuses the new limits: the generation falls, the queue is fenced, and
      nobody fenced it. Without room, then, definitions do not last either. */
  lemma DefinitionLost(c: Config, boot: Boot, one: Event, two: Event)
    requires Roomy(c) && c.limits.maxMemo == 2 && c.limits.maxPending >= 1
    requires one.Restart? && two.Restart? && GoodFeed(one.feed) && GoodFeed(two.feed)
    ensures var s := Exec(c, Start(c, boot), Plans(c, boot));
      var first := Step(c, s, one);
      var changed := Step(c, first.state, Live(Limiting(4)));
      var second := Step(c, changed.state, two);
      && first.verdict.Took? && changed.verdict.Took? && second.verdict.Took?
      && changed.state.queues.Keys == second.state.queues.Keys == {1}
      && changed.state.queues[1].def.generation == 2 && !changed.state.queues[1].flags.fenced
      && second.state.queues[1].def.generation == 1 && second.state.queues[1].flags.fenced && second.state.queues[1].fence.token == 2
  {
    hide Step, Start, Exec, Plans, Inv, Booked, HeardTo, Site, LotOf, TakenOf, AttemptsOf, After, Takes, Asks;
    var s := Exec(c, Start(c, boot), Plans(c, boot));
    PlansRun(c, boot);
    PlanLots();
    PlanLotsAgain();
    RestartStage(c, s, PLAN_OPS, Lot(1, false, 1, [A2, A3]), 7, one);
    var s1 := Step(c, s, one).state;
    var ops := PLAN_OPS + ([Declaring] + [Fencing(2)] + [Unfencing(3)]);
    AskedEpochs(s1, 4);
    LiveStage(c, s1, ops, Lot(1, false, 1, [A5, A3]), 0, Limiting(4));
    LimitsTaken(c, s1, Lot(1, false, 1, [A5, A3]), 0, ops);
    RestartStage(c, Step(c, s1, Live(Limiting(4))).state, ops + [Limiting(4)], Lot(1, false, 2, [A3, A4]), 8, two);
  }

  lemma LimitsTaken(c: Config, s: State, lot: Lot, n: nat, ops: seq<Op>)
    requires c.hasJournal && Stage(c, s, ops, lot, n) && Takes(lot, Limiting(4)) && n < 8 && s.epoch == 2
    ensures Step(c, s, Live(Limiting(4))).verdict.Took?
  {
    hide Step, Inv, Apply, Lone, Booked, After, Takes, HeardTo, Timely, Asks;
    MutateIsApply(c, s, Live(Limiting(4)));
    AskedEpochs(s, 4);
    SenderOf(Limiting(4));
    HeardNext(s.publishers, n, 8);
    LiveTimely(s, Asks(Limiting(4)));
    WorkOn(c, s, lot, Limiting(4), 0, Good, false);
  }
}
