/** Runs: sequences of calls, clock readings, journal outcomes and restarts. */
module Run {
  import opened Entities
  import opened Work
  import opened Machine
  import opened Recovery

  datatype Event =
    | Mutate(request: Request, clock: int, io: Io)
    | NewResource(name: Text, owner: Id, sender: Provenance, clock: int, io: Io)
    | GrantTo(resource: Id, grant: Grant, principal: Id, epoch: nat, sender: Provenance, clock: int, io: Io)
    | NewClass(resource: Id, name: Text, priority: nat, qos: Qos, principal: Id, epoch: nat, sender: Provenance, clock: int, io: Io)
    | NewPool(resource: Id, name: Text, capacity: nat, principal: Id, epoch: nat, sender: Provenance, clock: int, io: Io)
    | NewBackend(resource: Id, incarnation: nat, principal: Id, epoch: nat, sender: Provenance, clock: int, io: Io)
    | BackendDied(backend: Id, incarnation: nat, principal: Id, epoch: nat, clock: int, io: Io)
    | NewEpoch(principal: Id, sender: Provenance, clock: int, io: Io)
    | Discredit(queue: Id, principal: Id, epoch: nat, clock: int)
    | RefreshAll(clock: int)
    | ExplainOne(queue: Id, clock: int)
    | PlanApply(queue: Id, expected: nat, principal: Id, sender: Provenance, clock: int, io: Io)
    | CommitApply(plan: Plan, applied: Applied, sender: Provenance, clock: int, io: Io)
    | AbortApply(plan: Plan, clock: int, io: Io)
    | CompactJournal(io: Io)
    | Stop(clock: int, io: Io)
    | Restart(keep: nat, boot: Boot, feed: seq<Moment>, clock: int)

  function Dispatch(c: Config, s: State, e: Event): Reply {
    match e
    case Mutate(r, clock, io) => Apply(c, s, r, clock, io, false)
    case NewResource(name, owner, sender, clock, io) => DeclareResource(c, s, name, owner, sender, clock, io)
    case GrantTo(resource, grant, principal, epoch, sender, clock, io) =>
      GrantCapabilities(c, s, resource, grant, principal, epoch, sender, clock, io)
    case NewClass(resource, name, priority, qos, principal, epoch, sender, clock, io) =>
      DeclareClass(c, s, resource, name, priority, qos, principal, epoch, sender, clock, io)
    case NewPool(resource, name, capacity, principal, epoch, sender, clock, io) =>
      DeclarePool(c, s, resource, name, capacity, principal, epoch, sender, clock, io)
    case NewBackend(resource, incarnation, principal, epoch, sender, clock, io) =>
      AddBackend(c, s, resource, incarnation, principal, epoch, sender, clock, io)
    case BackendDied(backend, incarnation, principal, epoch, clock, io) =>
      MarkDead(c, s, backend, incarnation, principal, epoch, clock, io)
    case NewEpoch(principal, sender, clock, io) => AdvanceEpoch(c, s, principal, sender, clock, io)
    case Discredit(queue, principal, epoch, clock) => InvalidateEvidence(s, queue, principal, epoch, clock)
    case RefreshAll(clock) => Refresh(c, s, clock)
    case ExplainOne(queue, clock) => Explain(s, queue, clock)
    case PlanApply(queue, expected, principal, sender, clock, io) =>
      Reserve(c, s, queue, expected, principal, sender, clock, io)
    case CommitApply(plan, applied, sender, clock, io) => CommitPlan(c, s, plan, applied, sender, clock, io)
    case AbortApply(plan, clock, io) => AbortPlan(c, s, plan, clock, io)
    case CompactJournal(io) => Compact(c, s, io)
    case Stop(clock, io) => Shutdown(c, s, clock, io)
    case Restart(keep, boot, feed, clock) => Recover(c, Survivor(s.journal, keep), boot, feed, clock)
  }

  /** Names a step that is to be unfolded to its definition. */
  predicate Unfold(c: Config, s: State, e: Event) {
    true
  }

  ghost predicate IsStep(f: (Config, State, Event) -> Reply) {
    forall c: Config, s: State, e: Event {:trigger Unfold(c, s, e)} :: f(c, s, e) == Dispatch(c, s, e)
  }

  /** One call, or one crash and recovery. This is Dispatch; a proof that needs
      to see inside it asserts Unfold. */
  ghost function Step(c: Config, s: State, e: Event): Reply {
    assert IsStep((c, s, e) => Dispatch(c, s, e));
    var f :| IsStep(f);
    f(c, s, e)
  }

  /** The state after a sequence of events. */
  ghost function Exec(c: Config, s: State, es: seq<Event>): State {
    if es == [] then s else Step(c, Exec(c, s, es[..|es| - 1]), es[|es| - 1]).state
  }

  /** The state of a first process life on an empty journal. */
  ghost function Start(c: Config, boot: Boot): State {
    Recover(c, Journal([], 0, 0), boot, [], 0).state
  }
}
