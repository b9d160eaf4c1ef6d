/** Within one process life a generation number identifies a definition. */
module Generations {
  import opened Status
  import opened Entities
  import opened Mutations
  import opened Work
  import opened Machine
  import opened Evolution
  import opened Run
  import opened Steps
  import opened Reach
  import Deltas
  import Epochs
  import Soundness
  import Backends
  import Drains
  import Lifecycles
  import Occupancies

  /** One process life: no recovery in between. */
  predicate OneLife(es: seq<Event>) {
    forall k :: 0 <= k < |es| ==> !es[k].Restart?
  }

  lemma {:induction false} OneLifeServes(c: Config, s: State, es: seq<Event>)
    requires OneLife(es)
    ensures Serves(c, s, es)
  {
    hide Step;
    if es != [] {
      OneLifeServes(c, s, es[..|es| - 1]);
    }
  }

  /** The definition is as it was, or one of its fields is new and with it the
      generation. */
  predicate Redefined(d: Definition, next: Definition) {
    next.generation == d.generation + 1 && next.(generation := d.generation) != d
  }

  lemma PerformRedefines(c: Config, env: Env, q: Queue, r: Request)
    requires PayloadMatches(r.kind, r.payload)
    ensures var w := Perform(c, env, q, r); w.Done? ==> w.queue.def == q.def || Redefined(q.def, w.queue.def)
  {
    hide CheckBinding, Drains.Assess, Backends.Verify, Backends.FindLive, QueuePolicy, SameLife, Bounded, Lifecycles.CheckTransition, NoteZero,
      Occupancies.Invalidate;
  }

  lemma WorkedRedefines(c: Config, s: State, now: int, q: Queue, r: Request, replaying: bool, next: Queue)
    requires Worked(c, s, now, q, r, replaying, next)
    ensures next.def == q.def || Redefined(q.def, next.def)
  {
    hide Perform, Admitted, Remembered, PayloadMatches, Durable, Redefined, Kept;
    Soundness.AdmittedResource(c, s, q, r, replaying);
    PerformRedefines(c, EnvAt(s, q, now), q, r);
    var w := Perform(c, EnvAt(s, q, now), q, r);
    RememberedKept(c, w.queue, r, Ok, Durable(r.kind) && c.hasJournal);
    KeptDefinition(c, r, w.queue, next);
  }

  lemma KeptDefinition(c: Config, r: Request, q: Queue, next: Queue)
    requires Kept(c, r, q, next)
    ensures next.def == q.def
  {
    hide MemoGrows;
  }

  lemma MarkedDefinition(c: Config, s: State, e: Event, next: State, i: Id)
    requires i in s.queues && Marked(c, s, e, next, i)
    ensures i in next.queues && next.queues[i].def == s.queues[i].def
  {
    hide NextClass, QueuePolicy, Occupancies.Classify, Occupancies.Invalidate;
  }

  /** One call changes a definition only by the work of a request that named its
      generation, and raises the generation by exactly one. */
  lemma DefinitionStep(c: Config, s: State, e: Event, i: Id)
    requires Inv(c, s) && !e.Restart? && i in s.queues
    ensures var reply := Step(c, s, e);
      && i in reply.state.queues
      && var d, next := s.queues[i].def, reply.state.queues[i].def;
        || next == d
        || (Redefined(d, next) && reply.verdict.Took? && RequestOf(s, e).Some? &&
            RequestOf(s, e).value.queue == i && RequestOf(s, e).value.expectedGeneration == d.generation)
  {
    hide Step, Inv, ResourceSteps, JournalStep, CoreStep, Worked, Kept, Counted, Redefined, Marked, HasTarget, Installed;
    var reply := Step(c, s, e);
    Epochs.InvCounted(c, s);
    Deltas.StepDelta(c, s, e);
    assert QueueStep(c, s, e, reply, i);
    if RequestOf(s, e).None? {
      MarkedDefinition(c, s, e, reply.state, i);
    } else {
      var r := RequestOf(s, e).value;
      if reply.verdict.Took? && r.queue == i && !r.kind.DeclareQueue? {
        WorkedRedefines(c, s, reply.state.watermark, s.queues[i], r, false, reply.state.queues[i]);
        Epochs.WorkedEpoch(c, s, reply.state.watermark, s.queues[i], r, reply.state.queues[i]);
      } else {
        KeptDefinition(c, r, s.queues[i], reply.state.queues[i]);
      }
    }
  }

  /** Generations never fall, and equal generations mean equal definitions,
      between any two moments of one process life. */
  lemma {:induction false} GenerationIdentifies(c: Config, s: State, es: seq<Event>, m: nat, i: Id)
    requires Inv(c, s) && OneLife(es) && m <= |es| && i in Exec(c, s, es[..m]).queues
    ensures i in Exec(c, s, es).queues
    ensures var d, next := Exec(c, s, es[..m]).queues[i].def, Exec(c, s, es).queues[i].def;
      d.generation <= next.generation && (d.generation == next.generation <==> d == next)
  {
    hide Step, Inv;
    if m == |es| {
      assert es[..m] == es;
    } else {
      var n := |es| - 1;
      var before := es[..n];
      assert before[..m] == es[..m];
      GenerationIdentifies(c, s, before, m, i);
      OneLifeServes(c, s, before);
      ExecInv(c, s, before);
      DefinitionStep(c, Exec(c, s, before), es[n], i);
    }
  }

  /** The k-th event of the run changed the definition of queue i. */
  ghost predicate Changes(c: Config, s: State, es: seq<Event>, k: nat, i: Id)
    requires k < |es|
  {
    && i in Exec(c, s, es[..k]).queues && i in Exec(c, s, es[..k + 1]).queues
    && Exec(c, s, es[..k + 1]).queues[i].def != Exec(c, s, es[..k]).queues[i].def
  }

  ghost function RequestAt(c: Config, s: State, es: seq<Event>, k: nat): Option<Request>
    requires k < |es|
  {
    RequestOf(Exec(c, s, es[..k]), es[k])
  }

  /** A change is made by a request naming the generation it replaces. */
  lemma ChangeNamesGeneration(c: Config, s: State, es: seq<Event>, k: nat, i: Id)
    requires Inv(c, s) && OneLife(es) && k < |es| && Changes(c, s, es, k, i)
    ensures RequestAt(c, s, es, k).Some? && RequestAt(c, s, es, k).value.queue == i
    ensures RequestAt(c, s, es, k).value.expectedGeneration == Exec(c, s, es[..k]).queues[i].def.generation
    ensures Exec(c, s, es[..k + 1]).queues[i].def.generation == Exec(c, s, es[..k]).queues[i].def.generation + 1
  {
    hide Step, Inv;
    OneLifeServes(c, s, es[..k]);
    ExecInv(c, s, es[..k]);
    DefinitionStep(c, Exec(c, s, es[..k]), es[k], i);
    assert es[..k + 1][..k] == es[..k];
  }

  /** Of all requests that name one expected generation, at most one changes the
      definition. */
  lemma OneChangePerGeneration(c: Config, s: State, es: seq<Event>, k: nat, l: nat, i: Id)
    requires Inv(c, s) && OneLife(es) && k < l < |es| && Changes(c, s, es, k, i) && Changes(c, s, es, l, i)
    ensures RequestAt(c, s, es, k).Some? && RequestAt(c, s, es, l).Some?
    ensures RequestAt(c, s, es, k).value.expectedGeneration < RequestAt(c, s, es, l).value.expectedGeneration
  {
    hide Step, Inv, Exec, RequestAt;
    ChangeNamesGeneration(c, s, es, k, i);
    ChangeNamesGeneration(c, s, es, l, i);
    assert es[..l][..k + 1] == es[..k + 1];
    GenerationIdentifies(c, s, es[..l], k + 1, i);
  }
}
