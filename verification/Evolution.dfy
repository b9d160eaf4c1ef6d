/** What one mutation may do to one queue: the summary every later proof uses
    instead of the mutation pipeline itself. */
module Evolution {
  import opened Status
  import opened Entities
  import opened Mutations
  import opened Work
  import opened Machine
  import opened MemoLog
  import Memos
  import Provenances

  predicate Fits(memo: seq<Memo>, capacity: nat) {
    |memo| <= capacity && Distinct(memo)
  }

  predicate Mentions(memo: seq<Memo>, a: Attempt) {
    exists k :: 0 <= k < |memo| && memo[k].attempt == a
  }

  /** The memo stays within its bounds and mentions no attempt but this one
      that it did not mention before. */
  predicate MemoGrows(memo: seq<Memo>, next: seq<Memo>, a: Attempt, capacity: nat) {
    && (Fits(memo, capacity) ==> Fits(next, capacity))
    && forall k :: 0 <= k < |next| ==> next[k].attempt == a || Mentions(memo, next[k].attempt)
  }

  lemma RememberGrows(memo: seq<Memo>, m: Memo, capacity: nat)
    ensures MemoGrows(memo, Memos.Remember(memo, m, capacity), m.attempt, capacity)
  {
    var next := Memos.Remember(memo, m, capacity);
    if Fits(memo, capacity) && capacity > 0 {
      RememberSpec(memo, m, capacity);
    }
    OverwriteAttempts(memo, m);
    forall k | 0 <= k < |next| ensures next[k].attempt == m.attempt || Mentions(memo, next[k].attempt) {
      if capacity == 0 || Memos.Find(memo, m.attempt).Some? {
        assert memo[k].attempt == next[k].attempt;
      } else if k < |next| - 1 {
        assert next[k] == memo[k] || next[k] == memo[k + 1];
      }
    }
  }

  lemma {:induction false} OverwriteAttempts(memo: seq<Memo>, m: Memo)
    ensures |Memos.Overwrite(memo, m)| == |memo|
    ensures forall k :: 0 <= k < |memo| ==> Memos.Overwrite(memo, m)[k].attempt == memo[k].attempt
  {
    if memo != [] && memo[0].attempt != m.attempt {
      OverwriteAttempts(memo[1..], m);
    }
  }

  /** Nothing but the memo differs. */
  predicate Kept(c: Config, r: Request, q: Queue, next: Queue) {
    next == q.(memo := next.memo) && MemoGrows(q.memo, next.memo, r.attempt, c.limits.maxMemo)
  }

  lemma KeptSelf(c: Config, r: Request, q: Queue)
    ensures Kept(c, r, q, q)
  {
  }

  /** A request passed every stage of the pipeline on q. */
  predicate Admitted(c: Config, s: State, q: Queue, r: Request, replaying: bool) {
    && q.def.resource in s.resources
    && Memos.Find(q.memo, r.attempt).None?
    && Allowed(s.resources[q.def.resource].authority, q, r, replaying).Ok?
    && (replaying || Provenances.Classify(s.publishers, r.provenance, MAX_PUBLISHERS).Accepted?)
    && CheckCurrent(s.epoch, q, r, replaying).Ok?
  }

  function EnvAt(s: State, q: Queue, now: int): Env
    requires q.def.resource in s.resources
  {
    Env(s.resources[q.def.resource], s.epoch, now, s.ids.fence)
  }

  /** The request was admitted and next is what its work made of q. */
  predicate Worked(c: Config, s: State, now: int, q: Queue, r: Request, replaying: bool, next: Queue) {
    && PayloadMatches(r.kind, r.payload)
    && Admitted(c, s, q, r, replaying)
    && var w := Perform(c, EnvAt(s, q, now), q, r);
      w.Done? && next == Remembered(c, w.queue, r, Ok, Durable(r.kind) && c.hasJournal)
  }

  lemma RememberedKept(c: Config, q: Queue, r: Request, outcome: Code, durable: bool)
    ensures Kept(c, r, q, Remembered(c, q, r, outcome, durable))
  {
    hide EffectOf, Memos.Remember, MemoGrows;
    RememberGrows(q.memo, Memo(r.attempt, c.hash(EffectOf(r)), r.kind, outcome, q.def.generation, durable), c.limits.maxMemo);
  }

  /** A mutation of a queue is taken, and then it is the work of an admitted
      request, or it leaves all but the memo as it was. */
  predicate Evolved(c: Config, s: State, now: int, r: Request, replaying: bool, t: Turn)
    requires r.queue in s.queues
  {
    var q := s.queues[r.queue];
    if t.verdict.Took? then Worked(c, s, now, q, r, replaying, t.queue) else Kept(c, r, q, t.queue)
  }

  lemma ExecuteEvolves(c: Config, s: State, now: int, publishers: Provenances.Table, r: Request, io: Io, replaying: bool)
    requires PayloadMatches(r.kind, r.payload)
    requires r.queue in s.queues && Admitted(c, s, s.queues[r.queue], r, replaying)
    ensures Evolved(c, s, now, r, replaying, Execute(c, s, now, publishers, r, io))
  {
    hide Perform, Commit, Kept, Allowed, CheckCurrent, Memos.Find, Provenances.Classify, Remembered, Durable, PayloadMatches;
    var q := s.queues[r.queue];
    var w := Perform(c, EnvAt(s, q, now), q, r);
    if w.Refused? {
      RememberedKept(c, q, r, w.code, false);
    } else {
      var j := if Durable(r.kind) then Commit(c, s.journal, r, io) else Written(s.journal, Ok);
      RememberedKept(c, q, r, j.code, false);
    }
  }

  lemma DeclineEvolves(c: Config, s: State, now: int, publishers: Provenances.Table, r: Request, code: Code, replaying: bool)
    requires r.queue in s.queues
    ensures Evolved(c, s, now, r, replaying, Decline(c, s, publishers, r, code))
  {
    hide Worked, Remembered, Kept;
    RememberedKept(c, s.queues[r.queue], r, code, false);
  }

  lemma ExistingEvolves(c: Config, s: State, now: int, r: Request, io: Io, replaying: bool)
    requires PayloadMatches(r.kind, r.payload) && r.queue in s.queues
    ensures Evolved(c, s, now, r, replaying, ApplyExisting(c, s, now, r, io, replaying))
  {
    hide Execute, Worked, Kept, Decline, Allowed, CheckCurrent, Memos.Find, Provenances.Classify, PayloadMatches, EffectOf;
    var q := s.queues[r.queue];
    KeptSelf(c, r, q);
    if Admitted(c, s, q, r, replaying) {
      var heard := if replaying then s.publishers else Provenances.Observe(s.publishers, r.provenance);
      ExecuteEvolves(c, s, now, heard, r, io, replaying);
    } else {
      forall publishers, code ensures Evolved(c, s, now, r, replaying, Decline(c, s, publishers, r, code)) {
        DeclineEvolves(c, s, now, publishers, r, code, replaying);
      }
    }
  }
}
