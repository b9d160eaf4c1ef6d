/** What a replay remembers of the requests it went through, and that going
    through a remembered request again changes nothing durable. */
module Recalls {
  import opened Status
  import opened Entities
  import opened Mutations
  import opened Work
  import opened Machine
  import opened Evolution
  import opened Recovery
  import opened Steps
  import opened Reach
  import opened MemoLog
  import opened Twins
  import Names
  import Memos
  import Soundness
  import Provenances
  import Authorities

  // ---- memos with room ------------------------------------------------------

  lemma {:induction false} DistinctFits(memo: seq<Memo>, attempts: set<Attempt>)
    requires Distinct(memo) && MemoWithin(memo, attempts)
    ensures |memo| <= |attempts|
  {
    if memo != [] {
      var n := |memo| - 1;
      DistinctFits(memo[..n], attempts - {memo[n].attempt});
    }
  }

  /** An insertion into a memo whose attempts all fit pushes nothing out. */
  lemma NoEviction(memo: seq<Memo>, m: Memo, capacity: nat, attempts: set<Attempt>)
    requires Distinct(memo) && MemoWithin(memo, attempts) && m.attempt in attempts && |attempts| <= capacity
    ensures var next := Memos.Remember(memo, m, capacity);
      Mentions(next, m.attempt) && forall a :: Mentions(memo, a) ==> Mentions(next, a)
  {
    var next := Memos.Remember(memo, m, capacity);
    FindSpec(memo, m.attempt);
    OverwriteAttempts(memo, m);
    if Memos.Find(memo, m.attempt).None? {
      DistinctFits(memo, attempts - {m.attempt});
      assert next == memo + [m];
      assert next[|memo|].attempt == m.attempt;
    }
    forall a | Mentions(memo, a) ensures Mentions(next, a) {
      var k :| 0 <= k < |memo| && memo[k].attempt == a;
      assert next[k].attempt == a;
    }
  }

  /** The memo already mentions the attempt, or an entry for it was inserted. */
  ghost predicate Noted(capacity: nat, memo: seq<Memo>, next: seq<Memo>, a: Attempt) {
    (next == memo && Mentions(memo, a)) || exists m: Memo :: m.attempt == a && next == Memos.Remember(memo, m, capacity)
  }

  lemma NotedWithin(capacity: nat, memo: seq<Memo>, next: seq<Memo>, a: Attempt, attempts: set<Attempt>)
    requires Noted(capacity, memo, next, a) && MemoWithin(memo, attempts) && a in attempts
    ensures MemoWithin(next, attempts)
  {
    if next != memo {
      var m: Memo :| m.attempt == a && next == Memos.Remember(memo, m, capacity);
      RememberGrows(memo, m, capacity);
      forall k | 0 <= k < |next| ensures next[k].attempt in attempts {
        if next[k].attempt != a {
          var j :| 0 <= j < |memo| && memo[j].attempt == next[k].attempt;
        }
      }
    }
  }

  lemma NotedRecalls(capacity: nat, memo: seq<Memo>, next: seq<Memo>, a: Attempt, attempts: set<Attempt>)
    requires Noted(capacity, memo, next, a) && Distinct(memo) && MemoWithin(memo, attempts) && a in attempts && |attempts| <= capacity
    ensures Mentions(next, a) && forall b :: Mentions(memo, b) ==> Mentions(next, b)
  {
    hide Memos.Remember;
    if !Mentions(memo, a) || next != memo {
      var m: Memo :| m.attempt == a && next == Memos.Remember(memo, m, capacity);
      NoEviction(memo, m, capacity, attempts);
    }
  }

  /** The same attempts in the same places. */
  predicate SameAttempts(memo: seq<Memo>, next: seq<Memo>) {
    |next| == |memo| && forall k :: 0 <= k < |memo| ==> next[k].attempt == memo[k].attempt
  }

  lemma NotedHeld(capacity: nat, memo: seq<Memo>, next: seq<Memo>, a: Attempt)
    requires Noted(capacity, memo, next, a) && Mentions(memo, a)
    ensures SameAttempts(memo, next)
  {
    if next != memo {
      var m: Memo :| m.attempt == a && next == Memos.Remember(memo, m, capacity);
      FindSpec(memo, a);
      OverwriteAttempts(memo, m);
    }
  }

  lemma SameAttemptsWithin(memo: seq<Memo>, next: seq<Memo>, attempts: set<Attempt>)
    requires SameAttempts(memo, next)
    ensures MemoWithin(memo, attempts) ==> MemoWithin(next, attempts)
    ensures forall a :: Mentions(memo, a) ==> Mentions(next, a)
  {
    forall a | Mentions(memo, a) ensures Mentions(next, a) {
      var k :| 0 <= k < |memo| && memo[k].attempt == a;
      assert next[k].attempt == a;
    }
  }

  // ---- memos after one request ----------------------------------------------

  lemma RememberedNotes(c: Config, q: Queue, r: Request, outcome: Code, durable: bool)
    ensures Noted(c.limits.maxMemo, q.memo, Remembered(c, q, r, outcome, durable).memo, r.attempt)
  {
    hide Memos.Remember, EffectOf;
  }

  lemma ExistingNotes(c: Config, s: State, now: int, r: Request, io: Io, replaying: bool)
    requires PayloadMatches(r.kind, r.payload) && r.queue in s.queues
    ensures Noted(c.limits.maxMemo, s.queues[r.queue].memo, ApplyExisting(c, s, now, r, io, replaying).queue.memo, r.attempt)
  {
    hide Perform, Remembered, Commit, Admit, Noted, EffectOf, PayloadMatches, Durable, Memos.Find;
    var q := s.queues[r.queue];
    forall code, durable ensures Noted(c.limits.maxMemo, q.memo, Remembered(c, q, r, code, durable).memo, r.attempt) {
      RememberedNotes(c, q, r, code, durable);
    }
    HeldNotes(c.limits.maxMemo, q.memo, r.attempt);
    if q.def.resource in s.resources {
      var w := Perform(c, EnvAt(s, q, now), q, r);
      if w.Done? {
        PerformMemo(c, EnvAt(s, q, now), q, r);
        RememberedNotes(c, w.queue, r, Ok, Durable(r.kind) && c.hasJournal);
      }
    }
    AdmittedHome(s, q, r, replaying);
  }

  lemma HeldNotes(capacity: nat, memo: seq<Memo>, a: Attempt)
    ensures Memos.Find(memo, a).Some? ==> Noted(capacity, memo, memo, a)
  {
    hide Memos.Remember;
    FindSpec(memo, a);
  }

  lemma AdmittedHome(s: State, q: Queue, r: Request, replaying: bool)
    ensures Admit(s, q, r, replaying).code.Ok? ==> q.def.resource in s.resources
  {
    hide Allowed, CheckCurrent, Provenances.Classify, Provenances.Observe;
  }

  /** What a request does to the memo of a queue that existed before it. */
  ghost predicate MemoAfter(c: Config, r: Request, i: Id, memo: seq<Memo>, next: seq<Memo>) {
    next == memo || (!r.kind.DeclareQueue? && i == r.queue && Noted(c.limits.maxMemo, memo, next, r.attempt))
  }

  /** Memos change on the target only, and a new queue remembers its declaration. */
  ghost predicate MemosAfter(c: Config, t: State, r: Request, next: State) {
    && (forall i :: i in t.queues ==> i in next.queues && MemoAfter(c, r, i, t.queues[i].memo, next.queues[i].memo))
    && (forall i :: i in next.queues && i !in t.queues ==>
        i == t.ids.queue && r.kind.DeclareQueue? && MemoWithin(next.queues[i].memo, {r.attempt}))
  }

  lemma NewMemo(c: Config, r: Request, id: Id, now: int, durable: bool)
    requires r.payload.DeclarePayload?
    ensures MemoWithin(Remembered(c, NewQueue(r, id, now), r, Ok, durable).memo, {r.attempt})
  {
    hide EffectOf;
  }

  lemma InstallMemos(c: Config, t: State, now: int, r: Request, j: Journal, replaying: bool)
    requires r.kind.DeclareQueue? && r.payload.DeclarePayload? && r.payload.resource in t.resources && t.ids.queue !in t.queues
    ensures MemosAfter(c, t, r, Install(c, t, now, r, j, replaying))
  {
    hide Score, Remembered, NewQueue, Provenances.Observe, Noted, MemoWithin;
    NewMemo(c, r, t.ids.queue, now, c.hasJournal);
  }

  lemma SameMemos(c: Config, t: State, r: Request, next: State)
    requires next.queues == t.queues
    ensures MemosAfter(c, t, r, next)
  {
    hide Noted, MemoWithin;
  }

  lemma DeclareMemos(c: Config, t: State, now: int, r: Request, io: Io, replaying: bool)
    requires r.kind.DeclareQueue? && r.payload.DeclarePayload? && Counted(t)
    ensures MemosAfter(c, t, r, ApplyDeclare(c, t, now, r, io, replaying).state)
  {
    hide CheckDeclaration, Commit, Score, Install, MemosAfter;
    var reply := ApplyDeclare(c, t, now, r, io, replaying);
    if reply.verdict.Took? {
      TakenHasResource(c, t, r, replaying);
      InstallMemos(c, t, now, r, Commit(c, t.journal, r, io).journal, replaying);
    } else {
      SameMemos(c, t, r, reply.state);
    }
  }

  lemma ApplyMemos(c: Config, t: State, r: Request, clock: int, io: Io, replaying: bool)
    requires Counted(t)
    ensures MemosAfter(c, t, r, Apply(c, t, r, clock, io, replaying).state)
    ensures !t.shuttingDown && Check(r).Ok? && !r.kind.DeclareQueue? && r.queue in t.queues ==>
      var next := Apply(c, t, r, clock, io, replaying).state;
      r.queue in next.queues && Noted(c.limits.maxMemo, t.queues[r.queue].memo, next.queues[r.queue].memo, r.attempt)
  {
    hide ApplyDeclare, ApplyExisting, Check, Score, Noted, Counted, MemoWithin;
    var now := Later(t.watermark, clock);
    if !t.shuttingDown && Check(r).Ok? {
      assert PayloadMatches(r.kind, r.payload);
      if r.kind.DeclareQueue? {
        DeclareMemos(c, t, now, r, io, replaying) by {
          DeclarePayloads(r);
        }
      } else if r.queue in t.queues {
        ExistingNotes(c, t, now, r, io, replaying);
      }
    }
  }

  // ---- rosters --------------------------------------------------------------

  predicate Concerns(names: map<NameKey, Id>, r: Request, i: Id) {
    if r.kind.DeclareQueue? then
      && r.payload.DeclarePayload? && NameKey(r.payload.resource, r.payload.name) in names
      && names[NameKey(r.payload.resource, r.payload.name)] == i
    else r.queue == i
  }

  function MemoAttempts(memo: seq<Memo>): set<Attempt> {
    set k | 0 <= k < |memo| :: memo[k].attempt
  }

  /** The attempts queue i may have to remember: those its snapshot remembers and
      those of the commits and markers behind it. */
  function Roster(queues: map<Id, Queue>, order: seq<Request>, names: map<NameKey, Id>, i: Id): set<Attempt> {
    (if i in queues then MemoAttempts(queues[i].memo) else {}) +
    (set k | 0 <= k < |order| && Concerns(names, order[k], i) :: order[k].attempt)
  }

  /** Names are only added. */
  predicate NamesGrow(names: map<NameKey, Id>, next: map<NameKey, Id>) {
    forall k :: k in names ==> k in next && next[k] == names[k]
  }

  lemma RosterGrows(queues: map<Id, Queue>, order: seq<Request>, r: Request, names: map<NameKey, Id>, next: map<NameKey, Id>, i: Id)
    requires NamesGrow(names, next)
    ensures Roster(queues, order, names, i) <= Roster(queues, order + [r], next, i)
    ensures Concerns(next, r, i) ==> r.attempt in Roster(queues, order + [r], next, i)
  {
    var longer := order + [r];
    forall a | a in Roster(queues, order, names, i) ensures a in Roster(queues, longer, next, i) {
      if k :| 0 <= k < |order| && Concerns(names, order[k], i) && order[k].attempt == a {
        assert longer[k] == order[k] && Concerns(next, longer[k], i);
      }
    }
    assert longer[|order|] == r;
  }

  /** Requests that stand in the order already add nothing. */
  lemma RosterRepeats(queues: map<Id, Queue>, order: seq<Request>, more: seq<Request>, names: map<NameKey, Id>, i: Id)
    requires forall k :: 0 <= k < |more| ==> more[k] in order
    ensures Roster(queues, order + more, names, i) == Roster(queues, order, names, i)
  {
    var longer := order + more;
    forall a ensures a in Roster(queues, longer, names, i) <==> a in Roster(queues, order, names, i) {
      if k :| 0 <= k < |longer| && Concerns(names, longer[k], i) && longer[k].attempt == a {
        assert longer[k] in order;
      }
      if k :| 0 <= k < |order| && Concerns(names, order[k], i) && order[k].attempt == a {
        assert longer[k] == order[k];
      }
    }
  }

  predicate MemosWithin(t: State, queues: map<Id, Queue>, order: seq<Request>, names: map<NameKey, Id>) {
    forall i :: i in t.queues ==> MemoWithin(t.queues[i].memo, Roster(queues, order, names, i))
  }

  /** Every queue can remember its whole roster. */
  predicate RoomFor(c: Config, ids: set<Id>, queues: map<Id, Queue>, order: seq<Request>, names: map<NameKey, Id>) {
    forall i :: i in ids ==> |Roster(queues, order, names, i)| <= c.limits.maxMemo
  }

  lemma RoomyBefore(c: Config, ids: set<Id>, more: set<Id>, queues: map<Id, Queue>, order: seq<Request>, r: Request,
      names: map<NameKey, Id>, next: map<NameKey, Id>)
    requires RoomFor(c, more, queues, order + [r], next) && ids <= more && NamesGrow(names, next)
    ensures RoomFor(c, ids, queues, order, names)
  {
    hide Roster;
    forall i | i in ids ensures |Roster(queues, order, names, i)| <= c.limits.maxMemo {
      RosterGrows(queues, order, r, names, next, i);
      SubsetAttempts(Roster(queues, order, names, i), Roster(queues, order + [r], next, i));
    }
  }

  lemma {:induction false} SubsetAttempts(a: set<Attempt>, b: set<Attempt>)
    requires a <= b
    ensures |a| <= |b|
  {
    if a != {} {
      var x :| x in a;
      SubsetAttempts(a - {x}, b - {x});
    }
  }

  lemma AfterNames(s: State, r: Request, reply: Reply)
    requires Names.NamesAfter(s, r, reply)
    ensures NamesGrow(s.names, reply.state.names)
    ensures reply.verdict.Took? && r.kind.DeclareQueue? ==> Concerns(reply.state.names, r, s.ids.queue)
  {
  }

  // ---- what is recalled -----------------------------------------------------

  /** A declaration whose name is held, or work whose attempt is remembered. */
  predicate Recalled(t: State, r: Request) {
    if r.kind.DeclareQueue? then r.payload.DeclarePayload? && NameKey(r.payload.resource, r.payload.name) in t.names
    else r.queue in t.queues && Mentions(t.queues[r.queue].memo, r.attempt)
  }

  predicate RecallsAll(t: State, order: seq<Request>) {
    forall k :: 0 <= k < |order| && Durable(order[k].kind) ==> Recalled(t, order[k])
  }

  /** One more replayed request: memos stay on their rosters. */
  lemma RosterStep(c: Config, t: State, r: Request, m: Moment, queues: map<Id, Queue>, order: seq<Request>)
    requires Counted(t) && MemosWithin(t, queues, order, t.names)
    ensures var next := Apply(c, t, r, m.clock, m.io, true).state; MemosWithin(next, queues, order + [r], next.names)
  {
    hide Apply, Counted, Roster, Noted, MemoWithin, Concerns;
    var reply := Apply(c, t, r, m.clock, m.io, true);
    var next := reply.state;
    ApplyMemos(c, t, r, m.clock, m.io, true);
    Names.ApplyNames(c, t, r, m.clock, m.io, true);
    AfterNames(t, r, reply);
    CountedNumbered(t);
    ApplyQueues(c, t, r, m.clock, m.io, true);
    forall i | i in next.queues ensures MemoWithin(next.queues[i].memo, Roster(queues, order + [r], next.names, i)) {
      RosterGrows(queues, order, r, t.names, next.names, i);
      if i in t.queues {
        WithinMore(t.queues[i].memo, Roster(queues, order, t.names, i), Roster(queues, order + [r], next.names, i));
        if next.queues[i].memo != t.queues[i].memo {
          ConcernsTarget(next.names, r, i);
          NotedWithin(c.limits.maxMemo, t.queues[i].memo, next.queues[i].memo, r.attempt, Roster(queues, order + [r], next.names, i));
        }
      } else {
        InstalledTook(c, t, r, reply, i);
        WithinMore(next.queues[i].memo, {r.attempt}, Roster(queues, order + [r], next.names, i));
      }
    }
  }

  lemma InstalledTook(c: Config, t: State, r: Request, reply: Reply, i: Id)
    requires QueuesAfter(c, t, r, true, reply) && i in reply.state.queues && i !in t.queues
    ensures reply.verdict.Took? && r.kind.DeclareQueue? && i == t.ids.queue
  {
    hide Handled, HasTarget, CheckDeclaration, Check, Remembered;
  }

  lemma ConcernsTarget(names: map<NameKey, Id>, r: Request, i: Id)
    requires !r.kind.DeclareQueue? && i == r.queue
    ensures Concerns(names, r, i)
  {
  }

  lemma WithinMore(memo: seq<Memo>, attempts: set<Attempt>, more: set<Attempt>)
    requires MemoWithin(memo, attempts) && attempts <= more
    ensures MemoWithin(memo, more)
  {
  }

  /** With room, everything recalled stays recalled. */
  lemma RecallsOn(c: Config, t: State, r: Request, m: Moment, queues: map<Id, Queue>, order: seq<Request>, first: Request, epoch: nat)
    requires Replayable(c, t, epoch) && MemosWithin(t, queues, order, t.names) && Recalled(t, first)
    requires var next := Apply(c, t, r, m.clock, m.io, true).state; RoomFor(c, next.queues.Keys, queues, order + [r], next.names)
    ensures Recalled(Apply(c, t, r, m.clock, m.io, true).state, first)
  {
    hide Apply, Roster, Noted, MemoWithin, Concerns, Replayable, Mentions;
    var reply := Apply(c, t, r, m.clock, m.io, true);
    var next := reply.state;
    ReplayableCounts(c, t, epoch);
    ApplyMemos(c, t, r, m.clock, m.io, true);
    Names.ApplyNames(c, t, r, m.clock, m.io, true);
    AfterNames(t, r, reply);
    if !first.kind.DeclareQueue? {
      var i := first.queue;
      if next.queues[i].memo != t.queues[i].memo {
        ReplayableMemo(c, t, epoch, i);
        RosterGrows(queues, order, r, t.names, next.names, i);
        ConcernsTarget(next.names, r, i);
        WithinMore(t.queues[i].memo, Roster(queues, order, t.names, i), Roster(queues, order + [r], next.names, i));
        NotedRecalls(c.limits.maxMemo, t.queues[i].memo, next.queues[i].memo, r.attempt, Roster(queues, order + [r], next.names, i));
      }
    }
  }

  lemma ReplayableCounts(c: Config, t: State, epoch: nat)
    requires Replayable(c, t, epoch)
    ensures Counted(t) && EpochsAgree(t) && t.epoch == epoch
  {
    hide Counted, AllSound, EpochsAgree, RecordsSound;
  }

  lemma ReplayableMemo(c: Config, t: State, epoch: nat, i: Id)
    requires Replayable(c, t, epoch) && i in t.queues
    ensures Distinct(t.queues[i].memo) && Soundness.Coherent(t.queues[i])
  {
    hide Counted, EpochsAgree, RecordsSound, Soundness.Coherent, Soundness.Dated;
  }

  /** With room, a replayed request that reached its queue, or took its name, is
      recalled. */
  lemma RecallsNew(c: Config, t: State, r: Request, m: Moment, queues: map<Id, Queue>, order: seq<Request>, epoch: nat)
    requires Replayable(c, t, epoch) && MemosWithin(t, queues, order, t.names) && !t.shuttingDown && Check(r).Ok?
    requires var next := Apply(c, t, r, m.clock, m.io, true).state; RoomFor(c, next.queues.Keys, queues, order + [r], next.names)
    requires if r.kind.DeclareQueue? then Apply(c, t, r, m.clock, m.io, true).verdict.Took? else r.queue in t.queues
    ensures Recalled(Apply(c, t, r, m.clock, m.io, true).state, r)
  {
    hide Apply, Roster, Noted, MemoWithin, Concerns, Replayable, Mentions, Check;
    var reply := Apply(c, t, r, m.clock, m.io, true);
    var next := reply.state;
    ReplayableCounts(c, t, epoch);
    ApplyMemos(c, t, r, m.clock, m.io, true);
    Names.ApplyNames(c, t, r, m.clock, m.io, true);
    AfterNames(t, r, reply);
    if !r.kind.DeclareQueue? {
      var i := r.queue;
      ReplayableMemo(c, t, epoch, i);
      RosterGrows(queues, order, r, t.names, next.names, i);
      ConcernsTarget(next.names, r, i);
      WithinMore(t.queues[i].memo, Roster(queues, order, t.names, i), Roster(queues, order + [r], next.names, i));
      NotedRecalls(c.limits.maxMemo, t.queues[i].memo, next.queues[i].memo, r.attempt, Roster(queues, order + [r], next.names, i));
    }
  }

  // ---- replaying what is recalled -------------------------------------------

  lemma RecalledDeclaration(c: Config, t: State, r: Request)
    requires r.payload.DeclarePayload? && NameKey(r.payload.resource, r.payload.name) in t.names
    ensures !CheckDeclaration(c, t, r, true).Took?
  {
    hide CheckPlacement, Provenances.Classify, Authorities.Authorize;
  }

  /** A held name or a held attempt alone keeps a request from being taken. */
  lemma RecalledNotTaken(c: Config, t: State, r: Request, m: Moment)
    requires Recalled(t, r)
    ensures !Apply(c, t, r, m.clock, m.io, true).verdict.Took?
  {
    hide Check, Score, CheckDeclaration, Commit, Install, Execute, Admit, Memos.Find, EffectOf, Remembered;
    if r.kind.DeclareQueue? {
      RecalledDeclaration(c, t, r);
    } else {
      FindSpec(t.queues[r.queue].memo, r.attempt);
    }
  }

  /** Nothing durable changes, no name and no numbering, and every memo holds the
      same attempts. */
  lemma ReplayRecalled(c: Config, t: State, r: Request, m: Moment)
    requires c.hasJournal && m.io.Good? && Recordable(r) && Counted(t) && Recalled(t, r)
    ensures var next := Apply(c, t, r, m.clock, m.io, true).state;
      && Mirrors(true, t, next) && next.shuttingDown == t.shuttingDown
      && forall i :: i in t.queues ==> i in next.queues && SameAttempts(t.queues[i].memo, next.queues[i].memo)
  {
    hide Apply, Mirror, Counted, QueuesAfter, Recordable, Drawn, Noted, SameAttempts, Heard, Journalled;
    var reply := Apply(c, t, r, m.clock, m.io, true);
    RecalledNotTaken(c, t, r, m);
    CountedNumbered(t);
    ApplyQueues(c, t, r, m.clock, m.io, true);
    ApplyRest(c, t, r, m.clock, m.io, true);
    Names.ApplyNames(c, t, r, m.clock, m.io, true);
    ApplyTokens(c, t, r, m.clock, m.io, true);
    MarkerQueues(c, t, r, true, reply);
    ApplyMemos(c, t, r, m.clock, m.io, true);
    forall i | i in t.queues ensures i in reply.state.queues && SameAttempts(t.queues[i].memo, reply.state.queues[i].memo) {
      if reply.state.queues[i].memo != t.queues[i].memo {
        NotedHeld(c.limits.maxMemo, t.queues[i].memo, reply.state.queues[i].memo, r.attempt);
      } else {
        SelfAttempts(t.queues[i].memo);
      }
    }
  }

  lemma SelfAttempts(memo: seq<Memo>)
    ensures SameAttempts(memo, memo)
  {
  }
}
