/** Rebuilding the fabric from its journal, and compacting the journal to a
    snapshot. */
module Recovery {
  import opened Status
  import opened Entities
  import opened Mutations
  import opened Work
  import opened Machine
  import opened Extremes
  import Occupancies

  // ---- what the record codecs can carry -------------------------------------

  const MAX_RECORD: nat := 0x10_0000
  const MAX_GRANTS: nat := 256
  const MAX_ENTRIES: nat := 4096

  function ClassesSize(classes: seq<Class>): nat {
    if classes == [] then 0 else 96 + |classes[0].name| + |classes[0].qos.group| + ClassesSize(classes[1..])
  }

  function PoolsSize(pools: seq<Pool>): nat {
    if pools == [] then 0 else 90 + |pools[0].name| + PoolsSize(pools[1..])
  }

  /** Bytes of an encoded resource record. */
  function ResourceSize(r: Resource): nat {
    139 + |r.name| + 12 * |r.authority.grants| + ClassesSize(r.classes) + PoolsSize(r.pools) + 41 * |r.backends|
  }

  /** Resource records that decode to what was encoded. */
  predicate StorableResource(r: Resource) {
    && |r.name| <= MAX_NAME
    && |r.authority.grants| <= MAX_GRANTS && |r.classes| <= MAX_ENTRIES && |r.pools| <= MAX_ENTRIES && |r.backends| <= MAX_ENTRIES
    && (forall k :: 0 <= k < |r.classes| ==> |r.classes[k].name| <= MAX_NAME && |r.classes[k].qos.group| <= MAX_NAME)
    && (forall k :: 0 <= k < |r.pools| ==> |r.pools[k].name| <= MAX_NAME)
    && ResourceSize(r) <= MAX_RECORD
  }

  /** Queue records that decode to what was encoded. */
  predicate StorableQueue(q: Queue) {
    && |q.def.name| <= MAX_NAME && |q.failure| <= MAX_REASON && |q.fence.reason| <= MAX_REASON
    && q.drain.evidence.records <= MAX_EVIDENCE && |q.memo| <= MAX_MEMO
  }

  // ---- reading the journal --------------------------------------------------

  datatype Loaded = Loaded(
    epoch: nat, incarnation: nat, resources: map<Id, Resource>, queues: map<Id, Queue>,
    outstanding: map<Attempt, Request>, order: seq<Request>)

  /** Restored drain evidence has to be collected again, even a completed drain's. */
  function Reopened(d: Drain): Drain {
    if d.phase.Idle? then d
    else d.(evidence := d.evidence.(revalidated := false), phase := if d.phase.Completed? then EvidencePending else d.phase)
  }

  function Restored(q: Queue): Queue {
    q.(
      occupancy := if q.occupancy.present then Occupancies.Invalidate(q.occupancy, StaleRestart) else q.occupancy,
      drain := Reopened(q.drain),
      flags := q.flags.(stale := q.flags.stale || q.occupancy.present || !q.drain.phase.Idle? || q.applied.known))
  }

  function Absorb(l: Loaded, rec: Record): Loaded {
    match rec
    case EpochState(_, epoch, incarnation) =>
      l.(epoch := if epoch > l.epoch then epoch else l.epoch, incarnation := incarnation + 1)
    case ResourceState(r) => if StorableResource(r) then l.(resources := l.resources[r.id := r]) else l
    case QueueState(q) => if StorableQueue(q) then l.(queues := l.queues[q.def.id := Restored(q)]) else l
    case BeginAttempt(r) => if Decodable(r) then l.(outstanding := l.outstanding[r.attempt := r]) else l
    case CommitMutation(r) =>
      if Decodable(r) then l.(outstanding := l.outstanding - {r.attempt}, order := l.order + [r]) else l
  }

  /** One pass over the records in file order. */
  function Load(records: seq<Record>, headerEpoch: nat): Loaded {
    if records == [] then Loaded(headerEpoch, 1, map[], map[], map[], [])
    else Absorb(Load(records[..|records| - 1], headerEpoch), records[|records| - 1])
  }

  // ---- indexes --------------------------------------------------------------

  function KeyOf(q: Queue): NameKey {
    NameKey(q.def.resource, q.def.name)
  }

  function Bearers(queues: map<Id, Queue>, key: NameKey): set<Id> {
    set i | i in queues && KeyOf(queues[i]) == key
  }

  function NamesOf(queues: map<Id, Queue>): map<NameKey, Id> {
    map key | key in (set i | i in queues :: KeyOf(queues[i])) ::
      if Bearers(queues, key) == {} then 0 else queues[Least(Bearers(queues, key))].def.id
  }

  function WithCount(r: Resource, queues: map<Id, Queue>): Resource {
    r.(queueCount := |QueuesOf(queues, r.id)|)
  }

  function AllCounted(resources: map<Id, Resource>, queues: map<Id, Queue>): map<Id, Resource> {
    map i | i in resources :: WithCount(resources[i], queues)
  }

  function FreshIds(resources: map<Id, Resource>, queues: map<Id, Queue>): Ids {
    Ids(
      Greatest(set i | i in resources :: resources[i].id) + 1,
      Greatest(set i | i in queues :: queues[i].def.id) + 1,
      Greatest(set i, k | i in resources && 0 <= k < |resources[i].classes| :: resources[i].classes[k].id) + 1,
      Greatest(set i, k | i in resources && 0 <= k < |resources[i].pools| :: resources[i].pools[k].id) + 1,
      Greatest(set i, k | i in resources && 0 <= k < |resources[i].backends| :: resources[i].backends[k].id) + 1,
      Greatest(set i | i in queues :: queues[i].fence.token))
  }

  /** Derived counters and indexes, from the records alone. */
  function Rebuild(s: State): State {
    s.(
      names := NamesOf(s.queues),
      resources := AllCounted(s.resources, s.queues),
      ids := FreshIds(s.resources, s.queues))
  }

  // ---- recovery -------------------------------------------------------------

  function Dead(b: Backend): Backend {
    b.(alive := false)
  }

  function AllDead(backends: seq<Backend>): seq<Backend> {
    seq(|backends|, k requires 0 <= k < |backends| => Dead(backends[k]))
  }

  /** A restored resource carries no live backend. */
  function Lifeless(r: Resource): Resource {
    r.(backends := AllDead(r.backends))
  }

  function AllLifeless(resources: map<Id, Resource>): map<Id, Resource> {
    map i | i in resources :: Lifeless(resources[i])
  }

  function Adopted(r: Resource, epoch: nat): Resource {
    InEpoch(Lifeless(r), epoch)
  }

  function AllAdopted(resources: map<Id, Resource>, epoch: nat): map<Id, Resource> {
    map i | i in resources :: Adopted(resources[i], epoch)
  }

  function Blank(boot: Boot): State {
    State(true, false, 1, boot, 1, map[], map[], map[], map[], map[], Ids(1, 1, 1, 1, 1, 0), 0, Tally(0, 0, 0),
      Journal([], 0, 0))
  }

  function NextEpoch(previous: nat): nat {
    if previous == 0 then 1 else previous + 1
  }

  /** The state in which replay starts. */
  function Base(l: Loaded, j: Journal, boot: Boot): State {
    var epoch := NextEpoch(l.epoch);
    Rebuild(Blank(boot).(
      epoch := epoch, incarnation := l.incarnation, journal := j, queues := l.queues,
      resources := AllAdopted(l.resources, epoch)))
  }

  /** A clock reading and the journal's behaviour for one replayed commit. */
  datatype Moment = Moment(clock: int, io: Io)

  function MomentAt(feed: seq<Moment>, k: nat): Moment {
    if k < |feed| then feed[k] else Moment(0, Good)
  }

  /** Committed mutations are replayed in file order. */
  function Replay(c: Config, s: State, order: seq<Request>, feed: seq<Moment>): State {
    if order == [] then s
    else
      var n := |order| - 1;
      var before := Replay(c, s, order[..n], feed);
      Apply(c, before, order[n], MomentAt(feed, n).clock, MomentAt(feed, n).io, true).state
  }

  /** Dynamic evidence of an earlier life is never live authority. */
  function Distrusted(q: Queue, orphaned: bool): Queue {
    Stale(q).(occupancy :=
      if q.occupancy.present || orphaned then Occupancies.Invalidate(q.occupancy, StaleRestart) else q.occupancy)
  }

  predicate Orphaned(outstanding: map<Attempt, Request>, queue: Id) {
    exists a :: a in outstanding && outstanding[a].queue == queue
  }

  function AllDistrusted(queues: map<Id, Queue>, outstanding: map<Attempt, Request>): map<Id, Queue> {
    map i | i in queues :: Distrusted(queues[i], Orphaned(outstanding, i))
  }

  function Distrust(s: State, outstanding: map<Attempt, Request>): State {
    s.(queues := AllDistrusted(s.queues, outstanding))
  }

  /** Writes the header and the epoch record of the new life. */
  function Announce(s: State): State {
    var records := s.journal.records + [EpochState(s.boot, s.epoch, s.incarnation)];
    s.(journal := Journal(records, |records|, s.epoch))
  }

  function Recover(c: Config, j: Journal, boot: Boot, feed: seq<Moment>, clock: int): Reply {
    if !c.hasJournal then Reply(Blank(boot), Took)
    else
      var l := Load(j.records, j.headerEpoch);
      if l.epoch == COUNTER_MAX then
        Reply(
          Blank(boot).(healthy := false, journal := j, queues := l.queues, resources := AllLifeless(l.resources)),
          Rejected(CapacityExceeded))
      else
        var done := Announce(Rebuild(Distrust(Replay(c, Base(l, j, boot), l.order, feed), l.outstanding)));
        Reply(done.(watermark := Later(done.watermark, clock)), Took)
  }

  /** A crash keeps what was flushed and, of the rest, some whole records. */
  function Survivor(j: Journal, keep: nat): Journal {
    var n := if keep <= j.synced then j.synced else keep;
    if n >= |j.records| then j.(synced := |j.records|) else j.(records := j.records[..n], synced := n)
  }

  // ---- compaction -----------------------------------------------------------

  /** Identities in ascending order. */
  function Ascending(ids: set<Id>): seq<Id> {
    if ids == {} then [] else [Least(ids)] + Ascending(ids - {Least(ids)})
  }

  lemma {:induction false} AscendingMembers(ids: set<Id>, i: Id)
    ensures i in Ascending(ids) <==> i in ids
    decreases |ids|
  {
    if ids != {} {
      AscendingMembers(ids - {Least(ids)}, i);
    }
  }

  function ResourceStates(resources: map<Id, Resource>, order: seq<Id>): seq<Record>
    requires forall k :: 0 <= k < |order| ==> order[k] in resources
  {
    seq(|order|, k requires 0 <= k < |order| => ResourceState(resources[order[k]]))
  }

  function QueueStates(queues: map<Id, Queue>, order: seq<Id>): seq<Record>
    requires forall k :: 0 <= k < |order| ==> order[k] in queues
  {
    seq(|order|, k requires 0 <= k < |order| => QueueState(queues[order[k]]))
  }

  /** The epoch, then every resource, then every queue, each in identity order. */
  function Snapshot(s: State): seq<Record> {
    var resources := Ascending(s.resources.Keys);
    var queues := Ascending(s.queues.Keys);
    assert forall k :: 0 <= k < |resources| ==> resources[k] in s.resources by {
      forall k | 0 <= k < |resources| ensures resources[k] in s.resources {
        AscendingMembers(s.resources.Keys, resources[k]);
      }
    }
    assert forall k :: 0 <= k < |queues| ==> queues[k] in s.queues by {
      forall k | 0 <= k < |queues| ensures queues[k] in s.queues {
        AscendingMembers(s.queues.Keys, queues[k]);
      }
    }
    [EpochState(s.boot, s.epoch, s.incarnation)] + ResourceStates(s.resources, resources) + QueueStates(s.queues, queues)
  }

  function Compact(c: Config, s: State, io: Io): Reply {
    if !c.hasJournal then Reply(s, Rejected(Unsupported))
    else if s.shuttingDown then Reply(s, Rejected(ShuttingDown))
    else if s.plans != map[] then Reply(s, Rejected(Busy))
    else if !io.Good? then Reply(s, Rejected(NotDurable))
    else Reply(s.(journal := s.journal.(records := Snapshot(s), synced := |Snapshot(s)|)), Took)
  }
}
