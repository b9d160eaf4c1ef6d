/** The bounded memo of one queue against the unbounded log of everything it was
    asked to remember. */
module MemoLog {
  import opened Entities
  import opened Memos

  predicate Distinct(memo: seq<Memo>) {
    forall j, k :: 0 <= j < k < |memo| ==> memo[j].attempt != memo[k].attempt
  }

  /** The memo after a whole log. */
  function RememberAll(memo: seq<Memo>, log: seq<Memo>, capacity: nat): seq<Memo> {
    if log == [] then memo
    else Remember(RememberAll(memo, log[..|log| - 1], capacity), log[|log| - 1], capacity)
  }

  /** What the log says last about an attempt. */
  function LastAbout(log: seq<Memo>, a: Attempt): Option<Memo> {
    if log == [] then None
    else if log[|log| - 1].attempt == a then Some(log[|log| - 1])
    else LastAbout(log[..|log| - 1], a)
  }

  lemma {:induction false} FindSpec(memo: seq<Memo>, a: Attempt)
    ensures Find(memo, a).Some? <==> exists k :: 0 <= k < |memo| && memo[k].attempt == a
    ensures Find(memo, a).Some? ==> Find(memo, a).value in memo && Find(memo, a).value.attempt == a
  {
    if memo != [] && memo[0].attempt != a {
      FindSpec(memo[1..], a);
      if Find(memo[1..], a).Some? {
        var k :| 0 <= k < |memo[1..]| && memo[1..][k].attempt == a;
        assert memo[k + 1].attempt == a;
      } else {
        forall k | 0 <= k < |memo| ensures memo[k].attempt != a {
          assert k == 0 || memo[k] == memo[1..][k - 1];
        }
      }
    }
  }

  /** Overwriting replaces the one entry of that attempt and nothing else. */
  lemma {:induction false} OverwriteSpec(memo: seq<Memo>, m: Memo)
    requires Distinct(memo)
    ensures var next := Overwrite(memo, m);
      |next| == |memo| && forall k :: 0 <= k < |memo| ==> next[k] == if memo[k].attempt == m.attempt then m else memo[k]
  {
    if memo != [] {
      var rest := memo[1..];
      assert forall j, k :: 0 <= j < k < |rest| ==> rest[j] == memo[j + 1] && rest[k] == memo[k + 1];
      OverwriteSpec(rest, m);
    }
  }

  /** What one insertion does to a memo without repetitions. */
  lemma RememberSpec(memo: seq<Memo>, m: Memo, capacity: nat)
    requires Distinct(memo) && |memo| <= capacity && capacity > 0
    ensures var next := Remember(memo, m, capacity);
      && Distinct(next) && |next| <= capacity && m in next
      && (forall k :: 0 <= k < |next| ==> next[k] == m || (next[k] in memo && next[k].attempt != m.attempt))
  {
    FindSpec(memo, m.attempt);
    OverwriteSpec(memo, m);
    var next := Remember(memo, m, capacity);
    if Find(memo, m.attempt).Some? {
      var k :| 0 <= k < |memo| && memo[k].attempt == m.attempt;
      assert next[k] == m;
    } else {
      assert next[|next| - 1] == m;
    }
  }

  /** After any log the memo is bounded, holds one entry per attempt, and each
      entry is the last the log says about its attempt. */
  lemma {:induction false} AgreesWithLog(log: seq<Memo>, capacity: nat)
    requires capacity > 0
    ensures var memo := RememberAll([], log, capacity);
      && |memo| <= capacity && Distinct(memo)
      && forall k :: 0 <= k < |memo| ==> LastAbout(log, memo[k].attempt) == Some(memo[k])
  {
    if log != [] {
      var before := log[..|log| - 1];
      AgreesWithLog(before, capacity);
      RememberSpec(RememberAll([], before, capacity), log[|log| - 1], capacity);
    }
  }

  /** A memo of capacity zero never holds anything. */
  lemma {:induction false} NothingHeld(log: seq<Memo>)
    ensures RememberAll([], log, 0) == []
  {
    if log != [] {
      NothingHeld(log[..|log| - 1]);
    }
  }

  /** How many entries of the log are new to the memo when they arrive. */
  function Insertions(memo: seq<Memo>, log: seq<Memo>, capacity: nat): nat {
    if log == [] then 0
    else
      var before := log[..|log| - 1];
      Insertions(memo, before, capacity) +
      if Find(RememberAll(memo, before, capacity), log[|log| - 1].attempt).Some? then 0 else 1
  }

  /** The memo is still within bounds and still holds `a`, with so many
      insertions left before it can be pushed out. */
  predicate HeldFor(memo: seq<Memo>, a: Attempt, capacity: nat, left: nat) {
    && Distinct(memo) && |memo| <= capacity
    && exists k :: 0 <= k < |memo| && memo[k].attempt == a && left <= k + (capacity - |memo|)
  }

  lemma RememberHolds(memo: seq<Memo>, m: Memo, a: Attempt, capacity: nat, left: nat)
    requires HeldFor(memo, a, capacity, left)
    requires Find(memo, m.attempt).Some? || left > 0
    ensures HeldFor(Remember(memo, m, capacity), a, capacity, if Find(memo, m.attempt).Some? then left else left - 1)
  {
    var k :| 0 <= k < |memo| && memo[k].attempt == a && left <= k + (capacity - |memo|);
    var next := Remember(memo, m, capacity);
    RememberSpec(memo, m, capacity);
    OverwriteSpec(memo, m);
    if Find(memo, m.attempt).Some? || |memo| < capacity {
      assert next[k].attempt == a;
    } else {
      assert next[k - 1] == memo[k];
    }
  }

  lemma {:induction false} Survives(memo: seq<Memo>, log: seq<Memo>, a: Attempt, capacity: nat, left: nat)
    requires HeldFor(memo, a, capacity, left) && Insertions(memo, log, capacity) <= left
    ensures HeldFor(RememberAll(memo, log, capacity), a, capacity, left - Insertions(memo, log, capacity))
  {
    if log != [] {
      var before := log[..|log| - 1];
      Survives(memo, before, a, capacity, left);
      RememberHolds(RememberAll(memo, before, capacity), log[|log| - 1], a, capacity, left - Insertions(memo, before, capacity));
    }
  }

  /** A newly remembered attempt is still answered after any later log with
      fewer new attempts than the memo has places. */
  lemma NewEntrySurvives(memo: seq<Memo>, m: Memo, log: seq<Memo>, capacity: nat)
    requires Distinct(memo) && |memo| <= capacity && Find(memo, m.attempt).None? && capacity > 0
    requires Insertions(Remember(memo, m, capacity), log, capacity) < capacity
    ensures Find(RememberAll(Remember(memo, m, capacity), log, capacity), m.attempt).Some?
  {
    var next := Remember(memo, m, capacity);
    RememberSpec(memo, m, capacity);
    assert next[|next| - 1] == m;
    Survives(next, log, m.attempt, capacity, capacity - 1);
    FindSpec(RememberAll(next, log, capacity), m.attempt);
  }

  /** The bound is exact: one more new attempt pushes it out. */
  lemma OneMorePushesOut(memo: seq<Memo>, m: Memo, capacity: nat)
    requires Distinct(memo) && |memo| == capacity && capacity > 0 && Find(memo, m.attempt).None?
    ensures Find(Remember(memo, m, capacity), memo[0].attempt).None?
  {
    var next := Remember(memo, m, capacity);
    FindSpec(memo, m.attempt);
    FindSpec(next, memo[0].attempt);
  }

  /** The vector is searched, then overwritten in place or shifted and extended. */
  method RememberInPlace(memo: seq<Memo>, m: Memo, capacity: nat) returns (next: seq<Memo>)
    ensures next == Remember(memo, m, capacity)
  {
    next := memo;
    if capacity != 0 {
      var k := 0;
      while k < |memo| && memo[k].attempt != m.attempt
        invariant k <= |memo|
        invariant Find(memo, m.attempt) == Find(memo[k..], m.attempt)
        invariant Overwrite(memo, m) == memo[..k] + Overwrite(memo[k..], m)
      {
        assert memo[k..][1..] == memo[k + 1..];
        assert memo[..k] + [memo[k]] == memo[..k + 1];
        k := k + 1;
      }
      if k < |memo| {
        next := memo[k := m];
        assert next == memo[..k] + [m] + memo[k + 1..];
        assert memo[k..][1..] == memo[k + 1..];
      } else {
        if |next| >= capacity {
          next := next[1..];
        }
        next := next + [m];
      }
    }
  }
}
