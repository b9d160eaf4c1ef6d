/** What holds across process lives, with any number of restarts: definitions,
    names, lifecycles and fences carry over as if the process had not stopped,
    each under its own condition on the journal. */
module Lives {
  import opened Entities
  import opened Work
  import opened Machine
  import opened Run
  import opened Reach
  import opened Generations
  import opened Retirement
  import opened Twins
  import opened Ledger
  import opened GoodRuns
  import opened Refinement
  import opened NameReplay
  import Names
  import Snapshots

  // ---- runs whose restarts lose nothing -------------------------------------

  /** The run was tame since its k-th event, which left a checkpoint. */
  ghost predicate TameSince(c: Config, v: View, s: State, es: seq<Event>, k: nat)
    requires k <= |es|
  {
    Checkpoint(v, Exec(c, s, es[..k])) && TameRun(c, v, Exec(c, s, es[..k]), es[k..])
  }

  /** The journal at the end of the run was tame since a checkpoint: since the
      start of an empty journal or since some snapshot, restarts included. */
  ghost predicate Restorable(c: Config, v: View, s: State, es: seq<Event>) {
    exists k :: 0 <= k <= |es| && TameSince(c, v, s, es, k)
  }

  /** Every restart finds a restorable journal that takes what is replayed. */
  ghost predicate Continuous(c: Config, v: View, s: State, es: seq<Event>) {
    es == [] ||
    (Continuous(c, v, s, es[..|es| - 1]) &&
     (es[|es| - 1].Restart? ==> GoodFeed(es[|es| - 1].feed) && Restorable(c, v, s, es[..|es| - 1])))
  }

  /** A run whose recoveries succeed and lose nothing that is in view. */
  ghost predicate Lasting(c: Config, v: View, s: State, es: seq<Event>) {
    c.hasJournal && Inv(c, s) && Names.NameInv(c, s) && Serves(c, s, es) && Continuous(c, v, s, es)
  }

  lemma {:induction false} LastingPrefix(c: Config, v: View, s: State, es: seq<Event>, m: nat)
    requires Lasting(c, v, s, es) && m <= |es|
    ensures Lasting(c, v, s, es[..m]) && Inv(c, Exec(c, s, es[..m]))
  {
    hide Step, Inv, Names.NameInv, Restorable, GoodFeed;
    if m == |es| {
      assert es[..m] == es;
      ExecInv(c, s, es);
    } else {
      assert es[..|es| - 1][..m] == es[..m];
      LastingPrefix(c, v, s, es[..|es| - 1], m);
    }
  }

  /** Every run on an empty journal of tame steps, restarts with room in the memos
      among them, is lasting. */
  lemma {:induction false} TameLasts(c: Config, v: View, boot: Boot, es: seq<Event>)
    requires c.hasJournal && Serves(c, Start(c, boot), es) && TameRun(c, v, Start(c, boot), es)
    ensures Lasting(c, v, Start(c, boot), es)
  {
    hide Step, Inv, Start, Names.NameInv, Checkpoint, Steady, Room, Snapshots.Storable, GoodFeed;
    StartInv(c, boot);
    Names.StartNames(c, boot);
    if es != [] {
      var before := es[..|es| - 1];
      TameLasts(c, v, boot, before);
      StartIsCheckpoint(c, v, boot);
      assert before[..0] == [] && before[0..] == before;
      assert TameSince(c, v, Start(c, boot), before, 0);
      if es[|es| - 1].Restart? {
        RestartIsNotSteady(c, v, Exec(c, Start(c, boot), before), es[|es| - 1]);
      }
    }
  }

  lemma RestartIsNotSteady(c: Config, v: View, s: State, e: Event)
    requires e.Restart?
    ensures !Steady(c, v, s, e)
  {
    hide Step, Known, Commits;
  }

  /** The first view asks no more than the second. */
  predicate Within(w: View, v: View) {
    w == v || w.Naming? || v.Everything?
  }

  lemma {:induction false} TameRunWithin(c: Config, w: View, v: View, s: State, es: seq<Event>)
    requires Within(w, v) && TameRun(c, v, s, es)
    ensures TameRun(c, w, s, es)
  {
    hide Step, Settled, CommitsIn, Recordable, QuiescesAgain, Known, Room, Snapshots.Storable, GoodFeed;
    if es != [] {
      TameRunWithin(c, w, v, s, es[..|es| - 1]);
    }
  }

  /** What lasts in one view lasts in every narrower one. */
  lemma {:induction false} LastingWithin(c: Config, w: View, v: View, s: State, es: seq<Event>)
    requires Within(w, v) && Lasting(c, v, s, es)
    ensures Lasting(c, w, s, es)
  {
    hide Step, Inv, Names.NameInv, TameRun, GoodFeed, Flushed, FenceExact, SameQueues, Agrees, Commits, Stored;
    if es != [] {
      var before := es[..|es| - 1];
      LastingWithin(c, w, v, s, before);
      if es[|es| - 1].Restart? {
        var k :| 0 <= k <= |before| && TameSince(c, v, s, before, k);
        TameRunWithin(c, w, v, Exec(c, s, before[..k]), before[k..]);
        assert TameSince(c, w, s, before, k);
      }
    }
  }

  /** A restart of a restorable journal keeps everything in view. */
  lemma RestartKeeps(c: Config, v: View, s: State, es: seq<Event>)
    requires Lasting(c, v, s, es) && es != [] && es[|es| - 1].Restart?
    ensures var before, next := Exec(c, s, es[..|es| - 1]), Exec(c, s, es);
      if v.Naming? then Keyed(before, next) else Mirrors(v.Everything?, before, next)
  {
    hide Step, Inv, Names.NameInv, GoodFeed, Mirrors, Keyed, Checkpoint, TameRun;
    var n := |es| - 1;
    var before := es[..n];
    var k :| 0 <= k <= |before| && TameSince(c, v, s, before, k);
    ServesSplit(c, s, before, k);
    ExecInv(c, s, before[..k]);
    Names.ExecNames(c, s, before[..k]);
    ExecSplit(c, s, before, k);
    if v.Naming? {
      NamesRebuilt(c, Exec(c, s, before[..k]), before[k..], es[n]);
    } else {
      TameRebuilds(c, v, Exec(c, s, before[..k]), before[k..], es[n]);
    }
  }

  /** A life that compacts first is at a checkpoint, whatever the journal it was
      recovered from held. */
  lemma CompactFirst(c: Config, v: View, s: State, es: seq<Event>)
    requires Inv(c, s) && Serves(c, s, es) && |es| >= 2 && es[|es| - 2].Restart? && es[|es| - 1].CompactJournal?
    requires var before := Exec(c, s, es[..|es| - 1]); Snapshots.Storable(before) && Step(c, before, es[|es| - 1]).verdict.Took?
    ensures Checkpoint(v, Exec(c, s, es)) && TameSince(c, v, s, es, |es|)
  {
    hide Step, Inv, Checkpoint, Snapshots.Storable, FenceExact;
    var n := |es| - 1;
    assert es[..n][..n - 1] == es[..n - 1] && es[..|es|] == es && es[|es|..] == [];
    ServesSplit(c, s, es, n);
    ExecInv(c, s, es[..n]);
    RestartFence(c, Exec(c, s, es[..n - 1]), es[n - 1]);
    CompactionIsCheckpoint(c, v, Exec(c, s, es[..n]), es[n]);
  }

  // ---- definitions ----------------------------------------------------------

  /** The same definition, up to the time at which it was declared. */
  predicate SameDefinition(d: Definition, next: Definition) {
    next == d.(declaredAt := next.declaredAt)
  }

  /** Generations never fall, and equal generations mean equal definitions,
      between any two moments of such a run: quiescence may be lost by a restart,
      and fence tokens may be drawn anew, but definitions are not. */
  lemma {:induction false} DefinitionsLast(c: Config, s: State, es: seq<Event>, m: nat, i: Id)
    requires Lasting(c, Definitions, s, es) && m <= |es| && i in Exec(c, s, es[..m]).queues
    ensures i in Exec(c, s, es).queues
    ensures var d, next := Exec(c, s, es[..m]).queues[i].def, Exec(c, s, es).queues[i].def;
      d.generation <= next.generation && (d.generation == next.generation <==> SameDefinition(d, next))
  {
    hide Step, Inv, Lasting;
    if m == |es| {
      assert es[..m] == es;
    } else {
      var n := |es| - 1;
      var before := es[..n];
      assert before[..m] == es[..m];
      LastingPrefix(c, Definitions, s, es, n);
      DefinitionsLast(c, s, before, m, i);
      if es[n].Restart? {
        RestartKeeps(c, Definitions, s, es);
      } else {
        DefinitionStep(c, Exec(c, s, before), es[n], i);
      }
    }
  }

  /** The k-th event of the run gave queue i another definition. */
  ghost predicate Alters(c: Config, s: State, es: seq<Event>, k: nat, i: Id)
    requires k < |es|
  {
    && i in Exec(c, s, es[..k]).queues && i in Exec(c, s, es[..k + 1]).queues
    && !SameDefinition(Exec(c, s, es[..k]).queues[i].def, Exec(c, s, es[..k + 1]).queues[i].def)
  }

  lemma AltersByRequest(c: Config, s: State, es: seq<Event>, k: nat, i: Id)
    requires Lasting(c, Definitions, s, es) && k < |es| && Alters(c, s, es, k, i)
    ensures RequestAt(c, s, es, k).Some? && RequestAt(c, s, es, k).value.queue == i
    ensures RequestAt(c, s, es, k).value.expectedGeneration == Exec(c, s, es[..k]).queues[i].def.generation
    ensures Exec(c, s, es[..k + 1]).queues[i].def.generation == Exec(c, s, es[..k]).queues[i].def.generation + 1
  {
    hide Step, Inv, Lasting;
    LastingPrefix(c, Definitions, s, es, k);
    LastingPrefix(c, Definitions, s, es, k + 1);
    assert es[..k + 1][..k] == es[..k];
    if es[k].Restart? {
      RestartKeeps(c, Definitions, s, es[..k + 1]);
    } else {
      DefinitionStep(c, Exec(c, s, es[..k]), es[k], i);
    }
  }

  /** Of all requests that name one expected generation, at most one changes the
      definition, whatever restarts lie between them. */
  lemma OneChangeAcrossLives(c: Config, s: State, es: seq<Event>, k: nat, l: nat, i: Id)
    requires Lasting(c, Definitions, s, es) && k < l < |es| && Alters(c, s, es, k, i) && Alters(c, s, es, l, i)
    ensures RequestAt(c, s, es, k).Some? && RequestAt(c, s, es, l).Some?
    ensures RequestAt(c, s, es, k).value.expectedGeneration < RequestAt(c, s, es, l).value.expectedGeneration
  {
    hide Step, Inv, Exec, RequestAt, Lasting, SameDefinition;
    AltersByRequest(c, s, es, k, i);
    AltersByRequest(c, s, es, l, i);
    assert es[..l][..k + 1] == es[..k + 1];
    LastingPrefix(c, Definitions, s, es, l);
    DefinitionsLast(c, s, es[..l], k + 1, i);
  }

  // ---- names ----------------------------------------------------------------

  /** A name, once taken, belongs to the same queue for good. This asks nothing of
      memos, attempts, reasons, fences or quiescence. */
  lemma {:induction false} NamesLast(c: Config, s: State, es: seq<Event>, m: nat, key: NameKey)
    requires Lasting(c, Naming, s, es) && m <= |es| && key in Exec(c, s, es[..m]).names
    ensures key in Exec(c, s, es).names && Exec(c, s, es).names[key] == Exec(c, s, es[..m]).names[key]
  {
    hide Step, Inv, Lasting, Names.SameKeys;
    if m == |es| {
      assert es[..m] == es;
    } else {
      var n := |es| - 1;
      assert es[..n][..m] == es[..m];
      LastingPrefix(c, Naming, s, es, n);
      NamesLast(c, s, es[..n], m, key);
      if es[n].Restart? {
        RestartKeeps(c, Naming, s, es);
      } else {
        Names.NameKept(c, Exec(c, s, es[..n]), es[n], key);
      }
    }
  }

  // ---- lifecycles -----------------------------------------------------------

  /** A queue that was serving is still serving, unless it was quiesced on
      evidence or failed in between, restarts included. */
  lemma {:induction false} ServiceLasts(c: Config, s: State, es: seq<Event>, m: nat, i: Id)
    requires Lasting(c, Everything, s, es) && m <= |es|
    requires LifecycleIs(c, s, es[..m], i, Active) || LifecycleIs(c, s, es[..m], i, Draining)
    ensures LifecycleIs(c, s, es, i, Active) || LifecycleIs(c, s, es, i, Draining) || LeftProperly(c, s, es, m, i)
  {
    hide Step, Inv, LeftProperly, Lasting;
    if m == |es| {
      assert es[..m] == es;
    } else {
      var n := |es| - 1;
      var before := es[..n];
      assert before[..m] == es[..m];
      LastingPrefix(c, Everything, s, es, n);
      ServiceLasts(c, s, before, m, i);
      if LeftProperly(c, s, before, m, i) {
        LeftProperlyOn(c, s, es, m, i);
      } else if es[n].Restart? {
        RestartKeeps(c, Everything, s, es);
      } else {
        StepGoverned(c, Exec(c, s, before), es[n], i);
        if LifecycleIs(c, s, es, i, Quiesced) || LifecycleIs(c, s, es, i, Failed) {
          LeavesProperly(c, s, es, m, i);
        }
      }
    }
  }

  /** What a fence record says, apart from when it was raised. */
  predicate SameFencing(f: Fence, next: Fence) {
    next.fenced == f.fenced && next.token == f.token && next.fencedBy == f.fencedBy && next.reason == f.reason
  }

  /** A retired queue stays retired, with its definition and its fence record,
      without drain and without occupancy, whatever restarts follow. */
  lemma {:induction false} RetirementLasts(c: Config, s: State, es: seq<Event>, m: nat, i: Id)
    requires Lasting(c, Everything, s, es) && m <= |es| && LifecycleIs(c, s, es[..m], i, Retired)
    ensures LifecycleIs(c, s, es, i, Retired)
    ensures var q, next := Exec(c, s, es[..m]).queues[i], Exec(c, s, es).queues[i];
      SameDefinition(q.def, next.def) && SameFencing(q.fence, next.fence) && next.drain == NO_DRAIN && !next.occupancy.present
  {
    hide Step, Inv, Lasting;
    if m == |es| {
      assert es[..m] == es;
    } else {
      var n := |es| - 1;
      assert es[..n][..m] == es[..m];
      LastingPrefix(c, Everything, s, es, n);
      RetirementLasts(c, s, es[..n], m, i);
      if es[n].Restart? {
        RestartKeeps(c, Everything, s, es);
      } else {
        StepGoverned(c, Exec(c, s, es[..n]), es[n], i);
      }
    }
    LastingPrefix(c, Everything, s, es, |es|);
    assert es[..|es|] == es;
    InvCoherent(c, Exec(c, s, es), i);
  }

  /** While a queue is fenced nothing changes its definition or lifecycle, and
      only an unfence ends it: restarts rebuild the fence with its token, holder
      and reason. */
  lemma {:induction false} FencesLast(c: Config, s: State, es: seq<Event>, m: nat, i: Id)
    requires Lasting(c, Everything, s, es) && m <= |es|
    requires i in Exec(c, s, es[..m]).queues && Exec(c, s, es[..m]).queues[i].flags.fenced && !UnfencedFrom(c, s, es, m, i)
    ensures i in Exec(c, s, es).queues
    ensures var q, next := Exec(c, s, es[..m]).queues[i], Exec(c, s, es).queues[i];
      && SameDefinition(q.def, next.def) && next.lifecycle == q.lifecycle
      && next.flags.fenced && SameFencing(q.fence, next.fence)
  {
    hide Step, Inv, Unfences, Lasting;
    if m == |es| {
      assert es[..m] == es;
    } else {
      var n := |es| - 1;
      var before := es[..n];
      assert before[..m] == es[..m];
      assert forall k | m <= k < n :: before[..k] == es[..k];
      LastingPrefix(c, Everything, s, es, n);
      FencesLast(c, s, before, m, i);
      if es[n].Restart? {
        RestartKeeps(c, Everything, s, es);
      } else {
        StepGoverned(c, Exec(c, s, before), es[n], i);
      }
    }
  }
}
