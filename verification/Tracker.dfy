/** The tracker of what each publisher has been heard to say. */
module Tracking {
  import opened Status
  import opened Entities
  import opened Provenances
  import Laws

  /** The second was accepted after the first: a newer incarnation, or the same
      boot further along in its sequence. */
  predicate Precedes(p: Provenance, q: Provenance) {
    p.incarnation < q.incarnation ||
    (p.incarnation == q.incarnation && p.boot == q.boot && p.epoch <= q.epoch && p.sequence < q.sequence)
  }

  /** The table knows of p or of something accepted after it. */
  predicate Covers(t: Table, p: Provenance) {
    && p.publisher in t
    && var known := t[p.publisher];
      p.incarnation < known.incarnation ||
      (p.incarnation == known.incarnation && p.boot == known.boot && p.epoch <= known.epoch && p.sequence <= known.last)
  }

  lemma ObserveCovers(t: Table, p: Provenance, q: Provenance)
    requires Classify(t, q, MAX_PUBLISHERS).Accepted?
    ensures Covers(Observe(t, q), q)
    ensures Covers(t, p) ==> Covers(Observe(t, q), p) && (p.publisher == q.publisher ==> Precedes(p, q))
    ensures |t| <= MAX_PUBLISHERS ==> |Observe(t, q)| <= MAX_PUBLISHERS
  {
    assert Observe(t, q).Keys == t.Keys + {q.publisher};
    assert |t.Keys| == |t| && |Observe(t, q).Keys| == |Observe(t, q)|;
  }

  /** Nothing the table covers is accepted again. */
  lemma CoveredRefused(t: Table, p: Provenance)
    requires Covers(t, p)
    ensures !Classify(t, p, MAX_PUBLISHERS).Accepted?
  {
    hide Classify;
    Laws.AcceptanceIsExact(t, p, MAX_PUBLISHERS);
  }

  /** The tracker: one entry per publisher, updated in place. */
  class Tracker {
    var states: Table
    const capacity: nat

    constructor (capacity: nat)
      ensures states == map[] && this.capacity == capacity
    {
      states := map[];
      this.capacity := capacity;
    }

    /** Accepting records the newest place; refusing records nothing, and a
        duplicate leaves its publisher's entry as it was. */
    method ObserveOne(p: Provenance) returns (code: Code)
      modifies this`states
      ensures code == CodeOf(Classify(old(states), p, capacity))
      ensures states == if code.Ok? then Observe(old(states), p) else old(states)
      ensures code.Ok? ==> Covers(states, p)
    {
      var class_ := Classify(states, p, capacity);
      code := CodeOf(class_);
      if class_.Accepted? {
        var fresh_ := if p.publisher in states then states[p.publisher] else Publisher(0, Boot(0, 0), 0, 0);
        if p.incarnation != fresh_.incarnation {
          fresh_ := fresh_.(incarnation := p.incarnation, boot := p.boot, last := 0);
        }
        fresh_ := fresh_.(boot := p.boot, epoch := p.epoch, last := p.sequence);
        states := states[p.publisher := fresh_];
      }
    }
  }
}
