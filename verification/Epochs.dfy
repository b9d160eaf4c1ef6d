/** Epochs only rise, across calls, crashes and recoveries. */
module Epochs {
  import opened Entities
  import opened Authorities
  import opened Mutations
  import opened Work
  import opened Machine
  import opened Evolution
  import opened Recovery
  import opened Run
  import opened Steps
  import opened Reach
  import Deltas
  import Memos
  import Provenances

  /** The event founded a new epoch: an accepted advance or a recovery. */
  ghost predicate Founds(c: Config, s: State, e: Event) {
    (e.Restart? || e.NewEpoch?) && Step(c, s, e).verdict.Took?
  }

  lemma AdvanceFounds(c: Config, s: State, e: Event)
    requires e.NewEpoch? && Step(c, s, e).verdict.Took?
    ensures Step(c, s, e).state.epoch == s.epoch + 1
  {
    hide Apply, DeclareResource, GrantCapabilities, DeclareClass, DeclarePool, AddBackend, MarkDead, InvalidateEvidence, Refresh,
      Explain, Reserve, CommitPlan, AbortPlan, Compact, Shutdown, Recover, Persist, CheckAdvance, Superseded, InEpoch;
    assert Unfold(c, s, e);
  }

  /** An epoch never falls, and a founded one is new. */
  lemma EpochStep(c: Config, s: State, e: Event)
    requires c.hasJournal && Inv(c, s) && (e.Restart? ==> Step(c, s, e).verdict.Took?)
    ensures s.epoch <= Step(c, s, e).state.epoch
    ensures Founds(c, s, e) <==> s.epoch < Step(c, s, e).state.epoch
  {
    hide Step, Inv, QueueSteps, ResourceSteps, JournalStep;
    if e.Restart? {
      RestartInv(c, s, e);
    } else {
      Deltas.StepDelta(c, s, e) by {
        InvCounted(c, s);
      }
      if Founds(c, s, e) {
        AdvanceFounds(c, s, e);
      } else if e.NewEpoch? {
        RefusedAdvance(c, s, e);
      }
    }
  }

  lemma RefusedAdvance(c: Config, s: State, e: Event)
    requires e.NewEpoch? && !Step(c, s, e).verdict.Took?
    ensures Step(c, s, e).state.epoch == s.epoch
  {
    hide Apply, DeclareResource, GrantCapabilities, DeclareClass, DeclarePool, AddBackend, MarkDead, InvalidateEvidence, Refresh,
      Explain, Reserve, CommitPlan, AbortPlan, Compact, Shutdown, Recover, Persist, CheckAdvance, Superseded, InEpoch;
    assert Unfold(c, s, e);
  }

  lemma InvCounted(c: Config, s: State)
    requires Inv(c, s)
    ensures Counted(s) && EpochsAgree(s)
  {
    hide Counted, EpochsAgree, AllSound, RecordsSound, EpochStored;
  }

  /** In every run every founded epoch exceeds all earlier ones, and between
      foundings the epoch stands still. */
  lemma {:induction false} EpochsIncrease(c: Config, s: State, es: seq<Event>, m: nat)
    requires c.hasJournal && Inv(c, s) && Serves(c, s, es) && m <= |es|
    ensures Exec(c, s, es[..m]).epoch <= Exec(c, s, es).epoch
    ensures (exists k :: m <= k < |es| && Founds(c, Exec(c, s, es[..k]), es[k])) <==>
      Exec(c, s, es[..m]).epoch < Exec(c, s, es).epoch
  {
    hide Step, Inv, Founds;
    if m == |es| {
      assert es[..m] == es;
    } else {
      var n := |es| - 1;
      var before := es[..n];
      assert before[..m] == es[..m];
      assert forall k | m <= k < n :: before[..k] == es[..k];
      EpochsIncrease(c, s, before, m);
      ExecInv(c, s, before);
      EpochStep(c, Exec(c, s, before), es[n]);
      if Founds(c, Exec(c, s, before), es[n]) {
        assert es[..n] == before;
      }
      if k :| m <= k < n && Founds(c, Exec(c, s, before[..k]), before[k]) {
        assert Founds(c, Exec(c, s, es[..k]), es[k]);
      }
    }
  }

  /** In every reachable state each resource's authority is of the fabric's
      epoch, whatever epochs, restarts and topology changes came before. */
  lemma AuthorityIsCurrent(c: Config, boot: Boot, es: seq<Event>, i: Id)
    requires Serves(c, Start(c, boot), es) && i in Exec(c, Start(c, boot), es).resources
    ensures var s := Exec(c, Start(c, boot), es);
      s.resources[i].authority.epoch == s.epoch && s.resources[i].epoch == s.epoch && s.epoch >= 1
  {
    hide Step, Inv, Start, Counted;
    StartInv(c, boot);
    ExecInv(c, Start(c, boot), es);
    InvCounted(c, Exec(c, Start(c, boot), es));
  }

  lemma WorkedEpoch(c: Config, s: State, now: int, q: Queue, r: Request, next: Queue)
    requires Worked(c, s, now, q, r, false, next)
    ensures r.expectedEpoch == s.epoch && r.expectedGeneration == q.def.generation
  {
    hide Perform, Allowed, Memos.Find, Provenances.Classify, Remembered, PayloadMatches, Durable;
  }

  lemma InstalledEpoch(c: Config, s: State, r: Request, reply: Reply, i: Id)
    requires EpochsAgree(s) && Installed(c, s, r, false, reply, i)
    ensures r.expectedEpoch == s.epoch
  {
    hide Check, Remembered, CheckPlacement, Provenances.Classify, CapabilitiesOf, Machine.NewQueue;
  }

  /** Every effect was asked for in the epoch in which it happened. */
  lemma EffectsAreCurrent(c: Config, s: State, e: Event)
    requires Inv(c, s) && !e.Restart? && RequestOf(s, e).Some? && Step(c, s, e).verdict.Took?
    ensures RequestOf(s, e).value.expectedEpoch == s.epoch
  {
    hide Step, Inv, ResourceSteps, JournalStep, CoreStep, Installed, Worked, Kept, Counted;
    var r, reply := RequestOf(s, e).value, Step(c, s, e);
    InvCounted(c, s);
    Deltas.StepDelta(c, s, e);
    if r.kind.DeclareQueue? {
      InstalledEpoch(c, s, r, reply, s.ids.queue);
    } else {
      assert QueueStep(c, s, e, reply, r.queue);
      WorkedEpoch(c, s, reply.state.watermark, s.queues[r.queue], r, reply.state.queues[r.queue]);
    }
  }
}
