/** What the decision rules decide, stated without their order of tests. */
module Laws {
  import opened Status
  import opened Entities
  import opened Authorities
  import opened Policies
  import opened Mutations
  import Occupancies
  import Backends
  import Drains
  import Provenances

  // ---- authority ------------------------------------------------------------

  /** The first grant naming the principal decides what it holds. */
  lemma {:induction false} FirstGrantDecides(grants: seq<Grant>, principal: Id, k: nat)
    requires k < |grants| && grants[k].owner == principal && forall j :: 0 <= j < k ==> grants[j].owner != principal
    ensures CapabilitiesOf(grants, principal) == grants[k].capabilities
  {
    if k > 0 {
      FirstGrantDecides(grants[1..], principal, k - 1);
    }
  }

  /** A request is authorized exactly when its epoch is the authority's, the
      capability is held, and neither fence nor end of life stands against it;
      the stage reported is the first that refuses. */
  lemma AuthorizationIsExact(a: Authority, principal: Id, required: Capability, epoch: nat, flags: Flags, lifecycle: Lifecycle)
    ensures var code := Authorize(a, principal, required, epoch, flags, lifecycle);
      var current := epoch != 0 && epoch == a.epoch;
      var held := Holds(CapabilitiesOf(a.grants, principal), required);
      var unfenced := flags.fenced ==> required in {UnfenceQueues, Admin};
      var open := lifecycle in {Retired, Failed} ==> required in {RetireQueues, Admin};
      && (code.Ok? <==> current && held && unfenced && open)
      && (code.StaleEpoch? <==> !current)
      && (code.AuthorityDenied? <==> current && !held)
      && (code.FenceViolation? <==> current && held && !unfenced)
      && (code.LifecycleViolation? <==> current && held && unfenced && !open)
  {
    hide CapabilitiesOf;
  }

  // ---- evidence -------------------------------------------------------------

  /** Fresh means present, never set aside for good, of the current generation,
      not too far ahead and not too old. */
  lemma FreshIsExact(o: Occupancy, now: int, p: OccupancyPolicy, generation: nat)
    ensures Occupancies.Classify(o, now, p, generation).Fresh? <==>
      && o.present && !(o.freshness in {StaleRestart, StaleEpochSeen, StaleBackend})
      && (p.requireGeneration ==> o.generation == generation)
      && (o.observedAt <= now || (p.maxFutureSkew > 0 && o.observedAt <= now + p.maxFutureSkew))
      && (p.maxAge <= 0 || now - o.observedAt <= p.maxAge)
  {
  }

  /** An acknowledgement verifies exactly when it is known and names the live
      incarnation, epoch, generation and class binding of now. */
  lemma VerificationIsExact(a: Applied, live: Backend, epoch: nat, generation: nat, cls: ClassBinding)
    ensures Backends.Verify(a, live, epoch, generation, cls).Ok? <==>
      && a.known && live.alive && a.backend == live.id && a.incarnation == live.incarnation
      && a.epoch == epoch && a.generation == generation && a.cls == cls
  {
  }

  /** A drain in progress may complete exactly when a live backend attests it at
      the current epoch and emptiness was freshly observed since the request. */
  lemma AssessmentIsExact(d: Drain, o: Occupancy, live: Option<Backend>, epoch: nat, p: OccupancyPolicy, now: int)
    requires d.InProgress()
    ensures Drains.Assess(d, o, live, epoch, p, now).Ok? <==>
      && d.evidence.revalidated && d.evidence.records > 0 && d.evidence.zeroObserved
      && d.evidence.backend.accepted && d.evidence.backend.drained && d.evidence.backend.epoch == epoch
      && live.Some? && live.value.alive && d.evidence.backend.backend == live.value.id
      && d.evidence.backend.incarnation == live.value.incarnation
      && o.present && o.freshness.Fresh? && o.bytes == 0 && o.packets == 0
      && d.requestedAt <= o.observedAt && (p.maxAge <= 0 || now - o.observedAt <= p.maxAge)
  {
  }

  // ---- provenance -----------------------------------------------------------

  /** A sender is accepted exactly when it is complete and either new with room
      in the table, of a newer incarnation, or further along in the same boot. */
  lemma AcceptanceIsExact(t: Provenances.Table, p: Provenance, capacity: nat)
    ensures Provenances.Classify(t, p, capacity).Accepted? <==>
      && p.Valid()
      && (p.publisher !in t ==> |t| < capacity)
      && (p.publisher in t && p.incarnation <= t[p.publisher].incarnation ==>
          && p.incarnation == t[p.publisher].incarnation && p.boot == t[p.publisher].boot
          && p.epoch >= t[p.publisher].epoch && p.sequence > t[p.publisher].last)
  {
  }

  // ---- policy ---------------------------------------------------------------

  function FirstNonZero(a: int, b: int, d: int): int {
    if a != 0 then a else if b != 0 then b else d
  }

  /** The freshness window of a definition is its own, else its class's, else
      the fabric's, and the configured age only where that is not positive. */
  lemma WindowFallsBack(p: Policy, base: OccupancyPolicy, def: Definition)
    ensures var found := FindClassPolicy(p.classes, def.cls.id);
      var window := FirstNonZero(def.thresholds.staleAfter, if found.Some? then found.value.staleAfter else 0, p.staleAfter);
      PolicyFor(p, base, def) == base.(maxAge := if window > 0 then window else base.maxAge)
  {
    hide FindClassPolicy;
  }

  // ---- mutations ------------------------------------------------------------

  /** What a request must carry to be looked at. */
  predicate WellFormed(r: Request) {
    && r.attempt.Valid() && r.provenance.Valid() && r.principal != 0 && PayloadMatches(r.kind, r.payload)
    && (r.kind.DeclareQueue? <==> r.queue == 0)
    && match r.payload
       case DeclarePayload(resource, name, _, cls, pool, thresholds) =>
         resource != 0 && 0 < |name| <= MAX_NAME && cls.Valid() && pool.Valid() && thresholds.Consistent()
       case RebindPayload(binding) => binding.Valid()
       case ThresholdsPayload(limits) => limits.Consistent()
       case OwnershipPayload(owner) => owner != 0
       case OccupancyPayload(sample) => sample.Valid()
       case _ => true
  }

  lemma ValidationIsExact(r: Request)
    ensures Check(r).Ok? <==> WellFormed(r)
  {
  }

  /** A retry under another attempt, sender or epoch asks for the same effect. */
  lemma RetriesShareEffect(r: Request, attempt: Attempt, sender: Provenance, epoch: nat)
    ensures EffectOf(r.(attempt := attempt, provenance := sender, expectedEpoch := epoch)) == EffectOf(r)
  {
  }

  /** Except for evidence and acknowledgements, whose effect leaves fields out,
      and samples, which name their queue and epoch twice, the effect determines
      kind, target and payload. */
  lemma EffectsTellApart(r: Request, s: Request)
    requires EffectOf(r) == EffectOf(s)
    ensures r.kind == s.kind && r.queue == s.queue && r.expectedGeneration == s.expectedGeneration && r.principal == s.principal
    ensures !(r.payload.EvidencePayload? || r.payload.AckPayload? || r.payload.OccupancyPayload?) ==> r.payload == s.payload
  {
  }
}
